/** What the launcher object does when nobody disturbs it is a run of the protocol. */
module LauncherRefinement {
  import opened Common
  import opened LauncherState
  import opened LauncherProtocol
  import opened LauncherInduction
  import LauncherObject

  /** From `s` to `s'` by these actions, with nobody else in between. */
  ghost predicate Leads(s: State, actions: seq<Action>, s': State)
    decreases |actions|
  {
    if actions == [] then s == s' else exists t :: Next(s, actions[0], t) && Leads(t, actions[1..], s')
  }

  lemma LeadsOne(s: State, a: Action, s': State)
    requires Next(s, a, s')
    ensures Leads(s, [a], s')
  {
    assert [a][1..] == [] && Leads(s', [], s');
  }

  lemma {:induction false} LeadsOn(s: State, first: seq<Action>, t: State, second: seq<Action>, u: State)
    requires Leads(s, first, t) && Leads(t, second, u)
    ensures Leads(s, first + second, u)
    decreases |first|
  {
    if first == [] {
      assert first + second == second;
    } else {
      var next :| Next(s, first[0], next) && Leads(next, first[1..], t);
      LeadsOn(next, first[1..], t, second, u);
      assert (first + second)[1..] == first[1..] + second;
    }
  }

  lemma Then(s: State, actions: seq<Action>, t: State, a: Action, u: State)
    requires Leads(s, actions, t) && Next(t, a, u)
    ensures Leads(s, actions + [a], u)
  {
    LeadsOne(t, a, u);
    LeadsOn(s, actions, t, [a], u);
  }

  /** So whatever the protocol keeps, the object keeps. */
  lemma {:induction false} LeadsKeepsInv(s: State, actions: seq<Action>, s': State)
    requires Inv(s) && Leads(s, actions, s')
    ensures Inv(s')
    decreases |actions|
  {
    if actions != [] {
      var t :| Next(s, actions[0], t) && Leads(t, actions[1..], s');
      NextKeeps(s, actions[0], t);
      LeadsKeepsInv(t, actions[1..], s');
    }
  }

  // ---------------------------------------------------------------- launches

  /** What the backend does besides answering: the resource, its record, its instance, and a removal that failed. */
  datatype Backing = Backing(resource: ResourceId, recorded: bool, alive: bool, gone: bool)

  /** The answers are possible in `s`: names and ids are fresh, and the outcome says what it must. */
  predicate Fits(s: State, w: LauncherObject.LaunchWorld, b: Backing) {
    LauncherObject.Registers(w) ==>
      && w.name.value !in s.l.states && w.id.value !in s.issued && b.resource !in s.known
      && (w.outcome.Started? ==> w.outcome.handle == b.resource && b.recorded)
      && (w.outcome.Absent? ==> !b.alive)
  }

  function LaunchActions(w: LauncherObject.LaunchWorld, b: Backing): seq<Action> {
    if LauncherObject.Registers(w) then
      [OfLaunch(ALaunchBegin), OfLaunch(AJitIssued(w.name.value, w.id.value)),
       OfLaunch(ABackendLaunch(b.resource, w.outcome, b.recorded, b.alive)), LastAction(w, b)]
    else [OfLaunch(ALaunchBegin), OfLaunchEnd(ALaunchFail)]
  }

  function LastAction(w: LauncherObject.LaunchWorld, b: Backing): Action {
    match w.outcome
    case Started(_) => OfLaunch(ALaunchRecord)
    case Unproven(_) => OfLaunchEnd(ALaunchRecordPartial)
    case Absent => OfLaunchEnd(if w.removed then ALaunchUnregister else ALaunchUnregisterError(b.gone))
  }

  /** The mutex is held at the head of a launch loop with launches left. */
  predicate AtHead(s: State) {
    s.mu.Held? && s.mu.left > 0 && s.mu.stage == LoopHead
  }

  function BegunState(s: State): State
    requires s.mu.Held?
  {
    s.(l := s.l.(seqNo := s.l.seqNo + 1), mu := s.mu.(stage := Begun), stops := s.stops[s.l.seqNo + 1 := 0])
  }

  function IssuedState(s: State, w: LauncherObject.LaunchWorld): State
    requires s.mu.Held? && LauncherObject.Registers(w)
  {
    var t := BegunState(s);
    t.(mu := t.mu.(stage := Issued(w.name.value, w.id.value)),
       issued := s.issued + {w.id.value}, ours := s.ours + {w.id.value})
  }

  function LaunchedState(s: State, w: LauncherObject.LaunchWorld, b: Backing): State
    requires s.mu.Held? && LauncherObject.Registers(w)
  {
    var t := IssuedState(s, w);
    t.(mu := t.mu.(stage := Launched(w.name.value, w.id.value, b.resource, w.outcome, b.alive)),
       known := s.known[b.resource := w.id.value],
       records := if b.recorded then s.records[b.resource := w.id.value] else s.records)
  }

  lemma ReachesLaunched(s: State, w: LauncherObject.LaunchWorld, b: Backing)
    requires AtHead(s) && LauncherObject.Registers(w) && Fits(s, w, b)
    ensures Leads(s, LaunchActions(w, b)[..3], LaunchedState(s, w, b))
  {
    var s1, s2 := BegunState(s), IssuedState(s, w);
    LeadsOne(s, OfLaunch(ALaunchBegin), s1);
    Then(s, [OfLaunch(ALaunchBegin)], s1, OfLaunch(AJitIssued(w.name.value, w.id.value)), s2);
    var two := [OfLaunch(ALaunchBegin)] + [OfLaunch(AJitIssued(w.name.value, w.id.value))];
    Then(s, two, s2, OfLaunch(ABackendLaunch(b.resource, w.outcome, b.recorded, b.alive)), LaunchedState(s, w, b));
    assert LaunchActions(w, b)[..3] == two + [OfLaunch(ABackendLaunch(b.resource, w.outcome, b.recorded, b.alive))];
  }

  /** The end of a launch, by the answer of the backend. */
  function EndState(s: State, w: LauncherObject.LaunchWorld, b: Backing): State
    requires AtHead(s)
  {
    if !LauncherObject.Registers(w) then LaunchError(BegunState(s))
    else
      var t := LaunchedState(s, w, b);
      match w.outcome
      case Started(handle) =>
        t.(l := AddRunner(t.l, w.name.value, FreshRunner(handle, w.id.value, false)),
           runners := t.runners[w.name.value :=
             Runner(t.l.seqNo, b.resource, false, b.alive, Blocked, None, map[], false, false)],
           mu := t.mu.(left := t.mu.left - 1, stage := LoopHead))
      case Unproven(_) => Unlock(PartialRecorded(t))
      case Absent =>
        if w.removed then LaunchError(Removed(t, w.id.value, true))
        else LaunchError(Removed(t, w.id.value, b.gone).(l := AddPendingRegistration(t.l, w.id.value, w.name.value)))
  }

  lemma EndsLaunch(s: State, w: LauncherObject.LaunchWorld, b: Backing)
    requires AtHead(s) && LauncherObject.Registers(w)
    ensures Next(LaunchedState(s, w, b), LastAction(w, b), EndState(s, w, b))
  {}

  /** What the later launches can no longer be given. */
  predicate Took(s: State, w: LauncherObject.LaunchWorld, b: Backing, s': State) {
    LauncherObject.Launches(w) ==>
      && s'.issued == s.issued + {w.id.value} && s'.known.Keys == s.known.Keys + {b.resource}
      && s'.l.states.Keys == s.l.states.Keys + {w.name.value}
  }

  /** The launcher is the object's, and the mutex stays with the loop exactly when the launch succeeded. */
  predicate Ends(s: State, w: LauncherObject.LaunchWorld, b: Backing, s': State)
    requires AtHead(s)
  {
    && s'.l == LauncherObject.LaunchResult(s.l, w) && Took(s, w, b, s')
    && s'.mu == if LauncherObject.Launches(w) then Held(s.mu.lockedBy, s.mu.left - 1, LoopHead) else Free
  }

  lemma EndsStarted(s: State, w: LauncherObject.LaunchWorld, b: Backing)
    requires AtHead(s) && LauncherObject.Registers(w) && w.outcome.Started?
    ensures Ends(s, w, b, EndState(s, w, b))
  {}

  lemma EndsUnproven(s: State, w: LauncherObject.LaunchWorld, b: Backing)
    requires AtHead(s) && LauncherObject.Registers(w) && w.outcome.Unproven?
    ensures Ends(s, w, b, EndState(s, w, b))
  {}

  lemma EndsAbsent(s: State, w: LauncherObject.LaunchWorld, b: Backing)
    requires AtHead(s) && LauncherObject.Registers(w) && w.outcome.Absent?
    ensures Ends(s, w, b, EndState(s, w, b))
  {}

  lemma EndsRefused(s: State, w: LauncherObject.LaunchWorld, b: Backing)
    requires AtHead(s) && !LauncherObject.Registers(w)
    ensures Ends(s, w, b, EndState(s, w, b)) && Leads(s, LaunchActions(w, b), EndState(s, w, b))
  {
    LeadsOne(s, OfLaunch(ALaunchBegin), BegunState(s));
    Then(s, [OfLaunch(ALaunchBegin)], BegunState(s), OfLaunchEnd(ALaunchFail), EndState(s, w, b));
    assert LaunchActions(w, b) == [OfLaunch(ALaunchBegin)] + [OfLaunchEnd(ALaunchFail)];
  }

  lemma EndsRegistered(s: State, w: LauncherObject.LaunchWorld, b: Backing)
    requires AtHead(s) && Fits(s, w, b) && LauncherObject.Registers(w)
    ensures Leads(s, LaunchActions(w, b), EndState(s, w, b))
  {
    ReachesLaunched(s, w, b);
    EndsLaunch(s, w, b);
    Then(s, LaunchActions(w, b)[..3], LaunchedState(s, w, b), LastAction(w, b), EndState(s, w, b));
    assert LaunchActions(w, b) == LaunchActions(w, b)[..3] + [LastAction(w, b)];
  }

  /** One launch: the actions of the answers in `w` lead to the launcher that the object has afterwards. */
  lemma LaunchIsRun(s: State, w: LauncherObject.LaunchWorld, b: Backing) returns (s': State)
    requires AtHead(s) && Fits(s, w, b)
    ensures Leads(s, LaunchActions(w, b), s') && Ends(s, w, b, s')
  {
    s' := EndState(s, w, b);
    if !LauncherObject.Registers(w) {
      EndsRefused(s, w, b);
    } else {
      EndsRegistered(s, w, b);
      match w.outcome {
        case Started(_) => EndsStarted(s, w, b);
        case Unproven(_) => EndsUnproven(s, w, b);
        case Absent => EndsAbsent(s, w, b);
      }
    }
  }

  // ---------------------------------------------------------------- launch loops

  function LoopActions(world: nat -> LauncherObject.LaunchWorld, backing: nat -> Backing, n: nat, i: nat): seq<Action>
    decreases n
  {
    if n == 0 then [OfLaunchEnd(ALaunchUnlock)]
    else
      LaunchActions(world(i), backing(i)) +
      if LauncherObject.Launches(world(i)) then LoopActions(world, backing, n - 1, i + 1) else []
  }

  predicate AllFit(s: State, world: nat -> LauncherObject.LaunchWorld, backing: nat -> Backing, n: nat, i: nat) {
    forall k: nat | i <= k < i + n :: Fits(s, world(k), backing(k))
  }

  /** No two launches are given the same name, registration or resource. */
  ghost predicate Distinct(world: nat -> LauncherObject.LaunchWorld, backing: nat -> Backing) {
    forall j: nat, k: nat | j < k && LauncherObject.Registers(world(j)) && LauncherObject.Registers(world(k)) ::
      world(j).name != world(k).name && world(j).id != world(k).id && backing(j).resource != backing(k).resource
  }

  /** A launch that succeeded takes its own name, id and resource, and leaves the later ones free. */
  lemma RestFits(s: State, world: nat -> LauncherObject.LaunchWorld, backing: nat -> Backing, n: nat, i: nat, s': State)
    requires n > 0 && LauncherObject.Launches(world(i)) && Took(s, world(i), backing(i), s')
    requires AllFit(s, world, backing, n, i) && Distinct(world, backing)
    ensures AllFit(s', world, backing, n - 1, i + 1)
  {
    forall k: nat | i + 1 <= k < i + n ensures Fits(s', world(k), backing(k)) {
      assert Fits(s, world(k), backing(k));
    }
  }

  lemma LoopEnds(s: State) returns (s': State)
    requires s.mu.Held? && s.mu.left == 0 && s.mu.stage == LoopHead
    ensures Leads(s, [OfLaunchEnd(ALaunchUnlock)], s') && s'.mu == Free && s'.l == s.l
  {
    s' := Unlock(s);
    LeadsOne(s, OfLaunchEnd(ALaunchUnlock), s');
  }

  lemma LoopGoesOn(s: State, world: nat -> LauncherObject.LaunchWorld, backing: nat -> Backing, n: nat, i: nat,
                   t: State, u: State)
    requires n > 0 && LauncherObject.Launches(world(i))
    requires Leads(s, LaunchActions(world(i), backing(i)), t) && Leads(t, LoopActions(world, backing, n - 1, i + 1), u)
    requires t.l == LauncherObject.LaunchResult(s.l, world(i))
    requires u.l == LauncherObject.LaunchLoop(t.l, n - 1, world, i + 1)
    ensures Leads(s, LoopActions(world, backing, n, i), u) && u.l == LauncherObject.LaunchLoop(s.l, n, world, i)
  {
    LeadsOn(s, LaunchActions(world(i), backing(i)), t, LoopActions(world, backing, n - 1, i + 1), u);
  }

  /** A whole launch loop, from its first launch to the release of the mutex. */
  lemma {:induction false} LoopIsRun(s: State, world: nat -> LauncherObject.LaunchWorld, backing: nat -> Backing,
                                     n: nat, i: nat) returns (s': State)
    requires s.mu.Held? && s.mu.left == n && s.mu.stage == LoopHead
    requires AllFit(s, world, backing, n, i) && Distinct(world, backing)
    ensures Leads(s, LoopActions(world, backing, n, i), s') && s'.mu == Free
    ensures s'.l == LauncherObject.LaunchLoop(s.l, n, world, i)
    decreases n
  {
    if n == 0 {
      s' := LoopEnds(s);
    } else {
      var t := LaunchIsRun(s, world(i), backing(i));
      if LauncherObject.Launches(world(i)) {
        RestFits(s, world, backing, n, i, t);
        s' := LoopIsRun(t, world, backing, n - 1, i + 1);
        LoopGoesOn(s, world, backing, n, i, t, s');
      } else {
        s' := t;
        Regroup(LaunchActions(world(i), backing(i)), [], []);
      }
    }
  }

  /** The state in which a statistics callback has taken the mutex to launch. */
  function LockedState(s: State): State
    requires s.listener.Decide?
  {
    var count := s.listener.count;
    s.(mu := Held(ForDemand(count), Allowed(s.l, count), LoopHead), listener := Launching(count))
  }

  /** The second critical section of a statistics callback, as the object serves demand. */
  lemma ServeDemandIsRun(s: State, world: nat -> LauncherObject.LaunchWorld, backing: nat -> Backing)
    returns (s': State)
    requires s.listener.Decide? && s.mu == Free && !s.l.stopped
    requires AllFit(s, world, backing, Allowed(s.l, s.listener.count), 0) && Distinct(world, backing)
    ensures var n := Allowed(s.l, s.listener.count);
      && Leads(s, [OfListener(ADesiredLock)] + LoopActions(world, backing, n, 0), s') && s'.mu == Free
      && s'.l == LauncherObject.LaunchLoop(s.l, n, world, 0)
  {
    var n, t := Allowed(s.l, s.listener.count), LockedState(s);
    LeadsOne(s, OfListener(ADesiredLock), t);
    s' := LoopIsRun(t, world, backing, n, 0);
    LeadsOn(s, [OfListener(ADesiredLock)], t, LoopActions(world, backing, n, 0), s');
  }

  // ---------------------------------------------------------------- one cleanup

  /** What calls that fail may have done all the same: end the instance, remove the registration or the record. */
  datatype Hidden = Hidden(dead: bool, deregistered: bool, recordGone: bool)

  function Confirmed(st: RunnerState, terminate: bool, w: LauncherObject.CleanupWorld): bool {
    st.terminated || !terminate || w.killed
  }

  function TerminateActions(n: Name, c: Caller, st: RunnerState, terminate: bool,
                            w: LauncherObject.CleanupWorld, h: Hidden): seq<Action>
  {
    if st.terminated then []
    else if !Confirmed(st, terminate, w) then [OfTerminate(AFinishKillError(n, c, h.dead))]
    else
      (if terminate then [OfTerminate(AFinishKill(n, c))] else []) + [OfTerminate(AFinishConfirm(n, c))] +
      (if st.stopReported then [] else [OfTerminate(AFinishReport(n, c))])
  }

  function RemoveActions(n: Name, c: Caller, w: LauncherObject.CleanupWorld, h: Hidden): seq<Action> {
    if w.recordRemoved then [OfRelease(AFinishRemove(n, c)), OfRelease(AFinishDelete(n, c))]
    else [OfRelease(AFinishRemoveError(n, c, h.recordGone))]
  }

  function ReleaseActions(n: Name, c: Caller, st: RunnerState, w: LauncherObject.CleanupWorld, h: Hidden): seq<Action> {
    if !MustDeregister(st) then [OfRelease(AFinishKeepRegistration(n, c))] + RemoveActions(n, c, w, h)
    else if w.deregistered then [OfRelease(AFinishDeregister(n, c))] + RemoveActions(n, c, w, h)
    else [OfRelease(AFinishDeregisterError(n, c, h.deregistered))]
  }

  /** The second half runs only once termination is confirmed. */
  function LaterActions(n: Name, c: Caller, st: RunnerState, terminate: bool,
                        w: LauncherObject.CleanupWorld, h: Hidden): seq<Action>
  {
    if Confirmed(st, terminate, w) then ReleaseActions(n, c, st, w, h) else []
  }

  /** The steps of one `finishRunner` on a runner in state `st`. */
  function CleanupActions(n: Name, c: Caller, st: RunnerState, f: Finish,
                          w: LauncherObject.CleanupWorld, h: Hidden): seq<Action>
  {
    if st.cleaned then [OfTerminate(AFinishAlready(n, c))]
    else
      var begun := StartCleanup(st, f.code, f.waitErr, f.terminate);
      [OfTerminate(AFinishEnter(n, c)), OfTerminate(AFinishBegin(n, c))] +
      TerminateActions(n, c, begun, f.terminate, w, h) + LaterActions(n, c, begun, f.terminate, w, h)
  }

  predicate SameArguments(f: Finish, g: Finish) {
    f.code == g.code && f.waitErr == g.waitErr && f.terminate == g.terminate
  }

  /** In `t` the call has come to `pc`, and of the launcher of `s` only the state of `n` has changed, to `st`. */
  predicate InCall(s: State, n: Name, c: Caller, st: RunnerState, pc: FinishPc, t: State) {
    && n in s.runners && c in s.runners[n].calls
    && At(t, n, c, pc) && t.mu == Free && t.l == SetRunner(s.l, n, st)
    && SameArguments(s.runners[n].calls[c], t.runners[n].calls[c])
    && t.runners[n].holder == if HoldsCleanup(pc) then Some(c) else None
  }

  lemma SetTwice(l: LauncherState, n: Name, st: RunnerState, st': RunnerState)
    ensures SetRunner(SetRunner(l, n, st), n, st') == SetRunner(l, n, st')
  {
    assert l.states[n := st][n := st'] == l.states[n := st'];
  }

  lemma SetSame(l: LauncherState, n: Name)
    requires n in l.states
    ensures SetRunner(l, n, l.states[n]) == l
  {
    assert l.states[n := l.states[n]] == l.states;
  }

  lemma Enters(s: State, n: Name, c: Caller) returns (t: State)
    requires At(s, n, c, Waiting) && s.runners[n].holder == None && s.mu == Free && !s.l.states[n].cleaned
    ensures Leads(s, [OfTerminate(AFinishEnter(n, c))], t) && InCall(s, n, c, s.l.states[n], Entered, t)
  {
    t := Put(s, n, Goto(s.runners[n], c, Entered).(holder := Some(c)));
    SetSame(s.l, n);
    LeadsOne(s, OfTerminate(AFinishEnter(n, c)), t);
  }

  lemma Begins(s: State, n: Name, c: Caller, st: RunnerState, t: State) returns (u: State)
    requires InCall(s, n, c, st, Entered, t)
    ensures var f := s.runners[n].calls[c];
      && Leads(t, [OfTerminate(AFinishBegin(n, c))], u)
      && InCall(s, n, c, StartCleanup(st, f.code, f.waitErr, f.terminate), AfterBegin(st, f), u)
  {
    var f := t.runners[n].calls[c];
    u := Step(t, n, Goto(t.runners[n], c, AfterBegin(st, f)), StartCleanup(st, f.code, f.waitErr, f.terminate));
    SetTwice(s.l, n, st, StartCleanup(st, f.code, f.waitErr, f.terminate));
    LeadsOne(t, OfTerminate(AFinishBegin(n, c)), u);
  }

  lemma Kills(s: State, n: Name, c: Caller, st: RunnerState, t: State) returns (u: State)
    requires InCall(s, n, c, st, Killing, t)
    ensures Leads(t, [OfTerminate(AFinishKill(n, c))], u) && InCall(s, n, c, st, Confirming, u)
  {
    u := Put(t, n, Goto(t.runners[n], c, Confirming).(alive := false));
    LeadsOne(t, OfTerminate(AFinishKill(n, c)), u);
  }

  /** A call that gives up has changed the launcher no further. */
  lemma ReturnsInCall(s: State, n: Name, c: Caller, st: RunnerState, pc: FinishPc, t: State, u: State)
    requires InCall(s, n, c, st, pc, t) && GivesUp(t, n, c, u)
    ensures InCall(s, n, c, st, Returned(false), u)
  {}

  /** The call returns an error and nothing of the launcher changes. */
  predicate GivesUp(t: State, n: Name, c: Caller, u: State) {
    && n in t.runners && c in t.runners[n].calls && n in u.runners && u.l == t.l && u.mu == t.mu
    && u.runners[n].calls == Return(t.runners[n], c, false).calls && u.runners[n].holder == None
  }

  lemma KillFails(s: State, n: Name, c: Caller, st: RunnerState, dead: bool, t: State) returns (u: State)
    requires InCall(s, n, c, st, Killing, t)
    ensures Leads(t, [OfTerminate(AFinishKillError(n, c, dead))], u) && InCall(s, n, c, st, Returned(false), u)
  {
    u := FailKill(t, n, c, dead);
    ReturnsInCall(s, n, c, st, Killing, t, u);
  }

  lemma FailKill(t: State, n: Name, c: Caller, dead: bool) returns (u: State)
    requires At(t, n, c, Killing)
    ensures Leads(t, [OfTerminate(AFinishKillError(n, c, dead))], u) && GivesUp(t, n, c, u)
  {
    u := Put(t, n, Return(t.runners[n], c, false).(alive := t.runners[n].alive && !dead));
    LeadsOne(t, OfTerminate(AFinishKillError(n, c, dead)), u);
  }

  lemma Confirms(s: State, n: Name, c: Caller, st: RunnerState, t: State) returns (u: State)
    requires InCall(s, n, c, st, Confirming, t)
    ensures Leads(t, [OfTerminate(AFinishConfirm(n, c))], u)
    ensures InCall(s, n, c, ConfirmTermination(st), if st.stopReported then Deregistering else Reporting, u)
  {
    u := Step(t, n, Goto(t.runners[n], c, if st.stopReported then Deregistering else Reporting),
              ConfirmTermination(st));
    SetTwice(s.l, n, st, ConfirmTermination(st));
    LeadsOne(t, OfTerminate(AFinishConfirm(n, c)), u);
  }

  lemma Reports(s: State, n: Name, c: Caller, st: RunnerState, t: State) returns (u: State)
    requires InCall(s, n, c, st, Reporting, t)
    ensures Leads(t, [OfTerminate(AFinishReport(n, c))], u) && InCall(s, n, c, st, Deregistering, u)
  {
    u := Put(t, n, Goto(t.runners[n], c, Deregistering)).(stops := CountStop(t.stops, t.runners[n].attempt));
    LeadsOne(t, OfTerminate(AFinishReport(n, c)), u);
  }

  lemma Keeps(s: State, n: Name, c: Caller, st: RunnerState, t: State) returns (u: State)
    requires InCall(s, n, c, st, Deregistering, t) && !MustDeregister(st)
    ensures Leads(t, [OfRelease(AFinishKeepRegistration(n, c))], u) && InCall(s, n, c, st, Removing, u)
  {
    u := Put(t, n, Goto(t.runners[n], c, Removing));
    LeadsOne(t, OfRelease(AFinishKeepRegistration(n, c)), u);
  }

  lemma Deregisters(s: State, n: Name, c: Caller, st: RunnerState, t: State) returns (u: State)
    requires InCall(s, n, c, st, Deregistering, t) && MustDeregister(st)
    ensures Leads(t, [OfRelease(AFinishDeregister(n, c))], u)
    ensures InCall(s, n, c, st.(registrationRemoved := true), Removing, u)
  {
    u := Step(t, n, Goto(t.runners[n], c, Removing), st.(registrationRemoved := true)).(
           removed := t.removed + {st.runnerID});
    SetTwice(s.l, n, st, st.(registrationRemoved := true));
    LeadsOne(t, OfRelease(AFinishDeregister(n, c)), u);
  }

  lemma DeregisterFails(s: State, n: Name, c: Caller, st: RunnerState, gone: bool, t: State) returns (u: State)
    requires InCall(s, n, c, st, Deregistering, t) && MustDeregister(st)
    ensures Leads(t, [OfRelease(AFinishDeregisterError(n, c, gone))], u) && InCall(s, n, c, st, Returned(false), u)
  {
    u := Removed(Put(t, n, Return(t.runners[n], c, false)), st.runnerID, gone);
    LeadsOne(t, OfRelease(AFinishDeregisterError(n, c, gone)), u);
  }

  lemma Removes(s: State, n: Name, c: Caller, st: RunnerState, t: State) returns (u: State)
    requires InCall(s, n, c, st, Removing, t)
    ensures Leads(t, [OfRelease(AFinishRemove(n, c))], u) && InCall(s, n, c, st.(cleaned := true), Deleting, u)
  {
    u := Step(t, n, Goto(t.runners[n], c, Deleting), st.(cleaned := true)).(
           records := t.records - {t.runners[n].resource});
    SetTwice(s.l, n, st, st.(cleaned := true));
    LeadsOne(t, OfRelease(AFinishRemove(n, c)), u);
  }

  lemma RemoveFails(s: State, n: Name, c: Caller, st: RunnerState, gone: bool, t: State) returns (u: State)
    requires InCall(s, n, c, st, Removing, t)
    ensures Leads(t, [OfRelease(AFinishRemoveError(n, c, gone))], u) && InCall(s, n, c, st, Returned(false), u)
  {
    u := FailRemove(t, n, c, gone);
    ReturnsInCall(s, n, c, st, Removing, t, u);
  }

  lemma FailRemove(t: State, n: Name, c: Caller, gone: bool) returns (u: State)
    requires At(t, n, c, Removing)
    ensures Leads(t, [OfRelease(AFinishRemoveError(n, c, gone))], u) && GivesUp(t, n, c, u)
  {
    u := Put(t, n, Return(t.runners[n], c, false)).(
           records := if gone then t.records - {t.runners[n].resource} else t.records);
    LeadsOne(t, OfRelease(AFinishRemoveError(n, c, gone)), u);
  }

  /** How the call ends: what it returns, the mutexes it gives back, and the launcher it leaves. */
  predicate Returns(l: LauncherState, n: Name, c: Caller, ok: bool, u: State) {
    At(u, n, c, Returned(ok)) && u.runners[n].holder == None && u.mu == Free && u.l == l
  }

  lemma Deletes(s: State, n: Name, c: Caller, st: RunnerState, t: State) returns (u: State)
    requires InCall(s, n, c, st, Deleting, t)
    ensures Leads(t, [OfRelease(AFinishDelete(n, c))], u)
    ensures Returns(DeleteRunner(SetRunner(s.l, n, st), n), n, c, !st.waitErr, u)
  {
    u := Put(t, n, Return(t.runners[n], c, !st.waitErr)).(l := DeleteRunner(t.l, n));
    LeadsOne(t, OfRelease(AFinishDelete(n, c)), u);
  }
  /** The state of a runner whose termination is confirmed. */
  function Dead(st: RunnerState): RunnerState {
    if st.terminated then st else ConfirmTermination(st)
  }

  lemma KillsOrNot(s: State, n: Name, c: Caller, st: RunnerState, f: Finish, w: LauncherObject.CleanupWorld, t: State)
    returns (u: State)
    requires InCall(s, n, c, st, AfterBegin(st, f), t) && !st.terminated && Confirmed(st, f.terminate, w)
    ensures Leads(t, if f.terminate then [OfTerminate(AFinishKill(n, c))] else [], u)
    ensures InCall(s, n, c, st, Confirming, u)
  {
    u := t;
    if f.terminate {
      u := Kills(s, n, c, st, t);
    }
  }

  lemma ConfirmsAndReports(s: State, n: Name, c: Caller, st: RunnerState, t: State) returns (u: State)
    requires InCall(s, n, c, st, Confirming, t)
    ensures Leads(t, [OfTerminate(AFinishConfirm(n, c))] +
                     if st.stopReported then [] else [OfTerminate(AFinishReport(n, c))], u)
    ensures InCall(s, n, c, ConfirmTermination(st), Deregistering, u)
  {
    var confirm := OfTerminate(AFinishConfirm(n, c));
    u := Confirms(s, n, c, st, t);
    if st.stopReported {
      assert [confirm] + [] == [confirm];
    } else {
      var v := Reports(s, n, c, ConfirmTermination(st), u);
      LeadsOn(t, [confirm], u, [OfTerminate(AFinishReport(n, c))], v);
      u := v;
    }
  }

  /** The first half of a cleanup that has begun. */
  lemma TerminateIsRun(s: State, n: Name, c: Caller, st: RunnerState, f: Finish,
                       w: LauncherObject.CleanupWorld, h: Hidden, t: State) returns (u: State)
    requires InCall(s, n, c, st, AfterBegin(st, f), t)
    ensures Leads(t, TerminateActions(n, c, st, f.terminate, w, h), u)
    ensures if Confirmed(st, f.terminate, w) then InCall(s, n, c, Dead(st), Deregistering, u)
            else InCall(s, n, c, st, Returned(false), u)
  {
    if st.terminated {
      u := t;
    } else if Confirmed(st, f.terminate, w) {
      var v := KillsOrNot(s, n, c, st, f, w, t);
      u := ConfirmsAndReports(s, n, c, st, v);
      var kill: seq<Action> := if f.terminate then [OfTerminate(AFinishKill(n, c))] else [];
      var report: seq<Action> := if st.stopReported then [] else [OfTerminate(AFinishReport(n, c))];
      LeadsOn(t, kill, v, [OfTerminate(AFinishConfirm(n, c))] + report, u);
      Regroup(kill, [OfTerminate(AFinishConfirm(n, c))], report);
    } else {
      u := KillFails(s, n, c, st, h.dead, t);
    }
  }

  /** What the record's removal leaves of the launcher. */
  function Left(l: LauncherState, n: Name, st: RunnerState): LauncherState {
    if st.cleaned then DeleteRunner(SetRunner(l, n, st), n) else SetRunner(l, n, st)
  }

  lemma RemovedIsRun(s: State, n: Name, c: Caller, st: RunnerState, t: State) returns (u: State)
    requires InCall(s, n, c, st, Removing, t)
    ensures Leads(t, [OfRelease(AFinishRemove(n, c)), OfRelease(AFinishDelete(n, c))], u)
    ensures Returns(DeleteRunner(SetRunner(s.l, n, st.(cleaned := true)), n), n, c, !st.waitErr, u)
  {
    var v := Removes(s, n, c, st, t);
    u := Deletes(s, n, c, st.(cleaned := true), v);
    LeadsOn(t, [OfRelease(AFinishRemove(n, c))], v, [OfRelease(AFinishDelete(n, c))], u);
    assert [OfRelease(AFinishRemove(n, c))] + [OfRelease(AFinishDelete(n, c))] ==
           [OfRelease(AFinishRemove(n, c)), OfRelease(AFinishDelete(n, c))];
  }

  lemma KeptIsRun(s: State, n: Name, c: Caller, st: RunnerState, gone: bool, t: State) returns (u: State)
    requires InCall(s, n, c, st, Removing, t)
    ensures Leads(t, [OfRelease(AFinishRemoveError(n, c, gone))], u) && Returns(SetRunner(s.l, n, st), n, c, false, u)
  {
    u := RemoveFails(s, n, c, st, gone, t);
  }

  lemma RemoveIsRun(s: State, n: Name, c: Caller, st: RunnerState, w: LauncherObject.CleanupWorld, h: Hidden, t: State)
    returns (u: State)
    requires InCall(s, n, c, st, Removing, t) && !st.cleaned
    ensures Leads(t, RemoveActions(n, c, w, h), u)
    ensures Returns(Left(s.l, n, st.(cleaned := w.recordRemoved)), n, c, w.recordRemoved && !st.waitErr, u)
  {
    if w.recordRemoved {
      u := RemovedIsRun(s, n, c, st, t);
    } else {
      u := KeptIsRun(s, n, c, st, h.recordGone, t);
      assert st.(cleaned := false) == st;
    }
  }

  /** The state after the second half, when the first has confirmed termination. */
  function Released(st: RunnerState, w: LauncherObject.CleanupWorld): RunnerState {
    if !MustDeregister(st) then st.(cleaned := w.recordRemoved)
    else if w.deregistered then st.(registrationRemoved := true, cleaned := w.recordRemoved)
    else st
  }

  function ReleasedOk(st: RunnerState, w: LauncherObject.CleanupWorld): bool {
    (!MustDeregister(st) || w.deregistered) && w.recordRemoved && !st.waitErr
  }

  lemma GoneIsRun(s: State, n: Name, c: Caller, st: RunnerState, w: LauncherObject.CleanupWorld, h: Hidden, t: State)
    returns (u: State)
    requires InCall(s, n, c, st, Deregistering, t) && MustDeregister(st) && !st.cleaned
    ensures Leads(t, [OfRelease(AFinishDeregister(n, c))] + RemoveActions(n, c, w, h), u)
    ensures Returns(Left(s.l, n, st.(registrationRemoved := true, cleaned := w.recordRemoved)), n, c,
                    w.recordRemoved && !st.waitErr, u)
  {
    var v := Deregisters(s, n, c, st, t);
    u := RemoveIsRun(s, n, c, st.(registrationRemoved := true), w, h, v);
    LeadsOn(t, [OfRelease(AFinishDeregister(n, c))], v, RemoveActions(n, c, w, h), u);
  }

  lemma NotMineIsRun(s: State, n: Name, c: Caller, st: RunnerState, w: LauncherObject.CleanupWorld, h: Hidden, t: State)
    returns (u: State)
    requires InCall(s, n, c, st, Deregistering, t) && !MustDeregister(st) && !st.cleaned
    ensures Leads(t, [OfRelease(AFinishKeepRegistration(n, c))] + RemoveActions(n, c, w, h), u)
    ensures Returns(Left(s.l, n, st.(cleaned := w.recordRemoved)), n, c, w.recordRemoved && !st.waitErr, u)
  {
    var v := Keeps(s, n, c, st, t);
    u := RemoveIsRun(s, n, c, st, w, h, v);
    LeadsOn(t, [OfRelease(AFinishKeepRegistration(n, c))], v, RemoveActions(n, c, w, h), u);
  }

  lemma NotGoneIsRun(s: State, n: Name, c: Caller, st: RunnerState, gone: bool, t: State) returns (u: State)
    requires InCall(s, n, c, st, Deregistering, t) && MustDeregister(st)
    ensures Leads(t, [OfRelease(AFinishDeregisterError(n, c, gone))], u)
    ensures Returns(SetRunner(s.l, n, st), n, c, false, u)
  {
    u := DeregisterFails(s, n, c, st, gone, t);
  }

  /** The second half. */
  lemma ReleaseIsRun(s: State, n: Name, c: Caller, st: RunnerState, w: LauncherObject.CleanupWorld, h: Hidden, t: State)
    returns (u: State)
    requires InCall(s, n, c, st, Deregistering, t) && !st.cleaned
    ensures Leads(t, ReleaseActions(n, c, st, w, h), u)
    ensures Returns(Left(s.l, n, Released(st, w)), n, c, ReleasedOk(st, w), u)
  {
    if !MustDeregister(st) {
      u := NotMineIsRun(s, n, c, st, w, h, t);
    } else if w.deregistered {
      u := GoneIsRun(s, n, c, st, w, h, t);
    } else {
      u := NotGoneIsRun(s, n, c, st, h.deregistered, t);
    }
  }

  /** Both halves together are the object's cleanup. */
  lemma HalvesAreCleanup(st: RunnerState, f: Finish, w: LauncherObject.CleanupWorld)
    requires !st.cleaned
    ensures var begun := StartCleanup(st, f.code, f.waitErr, f.terminate);
      var r := LauncherObject.Cleanup(st, f.code, f.waitErr, f.terminate, w);
      if Confirmed(begun, f.terminate, w) then
        r.st == Released(Dead(begun), w) && r.failed == !ReleasedOk(Dead(begun), w)
      else r.st == begun && r.failed
  {}

  lemma BeginIsRun(s: State, n: Name, c: Caller) returns (t: State)
    requires At(s, n, c, Waiting) && s.runners[n].holder == None && s.mu == Free && !s.l.states[n].cleaned
    ensures Leads(s, [OfTerminate(AFinishEnter(n, c)), OfTerminate(AFinishBegin(n, c))], t)
    ensures var f, st := s.runners[n].calls[c], s.l.states[n];
      var begun := StartCleanup(st, f.code, f.waitErr, f.terminate);
      InCall(s, n, c, begun, AfterBegin(begun, f), t)
  {
    var entered := Enters(s, n, c);
    t := Begins(s, n, c, s.l.states[n], entered);
    LeadsOn(s, [OfTerminate(AFinishEnter(n, c))], entered, [OfTerminate(AFinishBegin(n, c))], t);
    assert [OfTerminate(AFinishEnter(n, c))] + [OfTerminate(AFinishBegin(n, c))] ==
           [OfTerminate(AFinishEnter(n, c)), OfTerminate(AFinishBegin(n, c))];
  }

  /**
   * One undisturbed `finishRunner`, of whichever goroutine: its steps lead to the launcher that the
   * object has after the same cleanup, and the call reports the same error.
   */
  lemma FinishRunnerIsRun(s: State, n: Name, c: Caller, w: LauncherObject.CleanupWorld, h: Hidden) returns (s': State)
    requires At(s, n, c, Waiting) && s.runners[n].holder == None && s.mu == Free
    ensures var f, st := s.runners[n].calls[c], s.l.states[n];
      var r := LauncherObject.Cleanup(st, f.code, f.waitErr, f.terminate, w);
      && Leads(s, CleanupActions(n, c, st, f, w, h), s')
      && Returns(if st.cleaned then s.l else Left(s.l, n, r.st), n, c, !r.failed, s')
  {
    var f, st := s.runners[n].calls[c], s.l.states[n];
    if st.cleaned {
      s' := Put(s, n, Goto(s.runners[n], c, Returned(true)));
      LeadsOne(s, OfTerminate(AFinishAlready(n, c)), s');
    } else {
      s' := BegunIsRun(s, n, c, w, h);
      HalvesAreCleanup(st, f, w);
    }
  }

  lemma BegunIsRun(s: State, n: Name, c: Caller, w: LauncherObject.CleanupWorld, h: Hidden) returns (s': State)
    requires At(s, n, c, Waiting) && s.runners[n].holder == None && s.mu == Free && !s.l.states[n].cleaned
    ensures var f, st := s.runners[n].calls[c], s.l.states[n];
      var begun := StartCleanup(st, f.code, f.waitErr, f.terminate);
      && Leads(s, CleanupActions(n, c, st, f, w, h), s')
      && if Confirmed(begun, f.terminate, w) then
           Returns(Left(s.l, n, Released(Dead(begun), w)), n, c, ReleasedOk(Dead(begun), w), s')
         else Returns(Left(s.l, n, begun), n, c, false, s')
  {
    var f, st := s.runners[n].calls[c], s.l.states[n];
    var begun := StartCleanup(st, f.code, f.waitErr, f.terminate);
    var t := BeginIsRun(s, n, c);
    s' := HalvesAreRun(s, n, c, begun, f, w, h, t);
    LeadsOn(s, [OfTerminate(AFinishEnter(n, c)), OfTerminate(AFinishBegin(n, c))], t,
            TerminateActions(n, c, begun, f.terminate, w, h) + LaterActions(n, c, begun, f.terminate, w, h), s');
    Regroup([OfTerminate(AFinishEnter(n, c)), OfTerminate(AFinishBegin(n, c))],
            TerminateActions(n, c, begun, f.terminate, w, h), LaterActions(n, c, begun, f.terminate, w, h));
  }

  lemma HalvesAreRun(s: State, n: Name, c: Caller, begun: RunnerState, f: Finish,
                     w: LauncherObject.CleanupWorld, h: Hidden, t: State) returns (s': State)
    requires InCall(s, n, c, begun, AfterBegin(begun, f), t) && !begun.cleaned
    ensures Leads(t, TerminateActions(n, c, begun, f.terminate, w, h) +
                     LaterActions(n, c, begun, f.terminate, w, h), s')
    ensures if Confirmed(begun, f.terminate, w) then
              Returns(Left(s.l, n, Released(Dead(begun), w)), n, c, ReleasedOk(Dead(begun), w), s')
            else Returns(Left(s.l, n, begun), n, c, false, s')
  {
    var u := TerminateIsRun(s, n, c, begun, f, w, h, t);
    if Confirmed(begun, f.terminate, w) {
      s' := DeadIsReleased(s, n, c, begun, w, h, u);
      LeadsOn(t, TerminateActions(n, c, begun, f.terminate, w, h), u, ReleaseActions(n, c, begun, w, h), s');
    } else {
      s' := u;
      Regroup(TerminateActions(n, c, begun, f.terminate, w, h), [], []);
    }
  }

  lemma DeadIsReleased(s: State, n: Name, c: Caller, begun: RunnerState,
                       w: LauncherObject.CleanupWorld, h: Hidden, u: State) returns (s': State)
    requires InCall(s, n, c, Dead(begun), Deregistering, u) && !begun.cleaned
    ensures Leads(u, ReleaseActions(n, c, begun, w, h), s')
    ensures Returns(Left(s.l, n, Released(Dead(begun), w)), n, c, ReleasedOk(Dead(begun), w), s')
  {
    s' := ReleaseIsRun(s, n, c, Dead(begun), w, h, u);
  }

  // ---------------------------------------------------------------- the calls of a cleanup

  /** The external call behind a step, if there is one. */
  function CallOf(a: Action): seq<LauncherObject.CleanupCall> {
    match a
    case OfTerminate(AFinishKill(_, _)) => [LauncherObject.Kill]
    case OfTerminate(AFinishKillError(_, _, _)) => [LauncherObject.Kill]
    case OfTerminate(AFinishReport(_, _)) => [LauncherObject.OnStop]
    case OfRelease(AFinishDeregister(_, _)) => [LauncherObject.Deregister]
    case OfRelease(AFinishDeregisterError(_, _, _)) => [LauncherObject.Deregister]
    case OfRelease(AFinishRemove(_, _)) => [LauncherObject.RemoveRecord]
    case OfRelease(AFinishRemoveError(_, _, _)) => [LauncherObject.RemoveRecord]
    case _ => []
  }

  function CallsOf(actions: seq<Action>): seq<LauncherObject.CleanupCall> {
    if actions == [] then [] else CallOf(actions[0]) + CallsOf(actions[1..])
  }

  lemma {:induction false} CallsAppend(a: seq<Action>, b: seq<Action>)
    ensures CallsOf(a + b) == CallsOf(a) + CallsOf(b)
  {
    if a == [] {
      assert a + b == b;
    } else {
      assert (a + b)[1..] == a[1..] + b;
      CallsAppend(a[1..], b);
    }
  }

  lemma CallsOne(a: Action)
    ensures CallsOf([a]) == CallOf(a)
  {
    assert [a][1..] == [] && CallsOf([]) == [];
  }

  function Made(made: bool, call: LauncherObject.CleanupCall): seq<LauncherObject.CleanupCall> {
    if made then [call] else []
  }

  lemma TerminateCalls(n: Name, c: Caller, st: RunnerState, terminate: bool, w: LauncherObject.CleanupWorld, h: Hidden)
    ensures CallsOf(TerminateActions(n, c, st, terminate, w, h)) ==
            Made(!st.terminated && terminate, LauncherObject.Kill) +
            Made(!st.terminated && Confirmed(st, terminate, w) && !st.stopReported, LauncherObject.OnStop)
  {
    if st.terminated {
    } else if Confirmed(st, terminate, w) {
      KillCalls(n, c, terminate);
      ReportCalls(n, c, !st.stopReported);
      CallsOne(OfTerminate(AFinishConfirm(n, c)));
      ThreeCalls(if terminate then [OfTerminate(AFinishKill(n, c))] else [], [OfTerminate(AFinishConfirm(n, c))],
                 if st.stopReported then [] else [OfTerminate(AFinishReport(n, c))]);
    } else {
      CallsOne(OfTerminate(AFinishKillError(n, c, h.dead)));
    }
  }

  lemma KillCalls(n: Name, c: Caller, made: bool)
    ensures CallsOf(if made then [OfTerminate(AFinishKill(n, c))] else []) == Made(made, LauncherObject.Kill)
  {
    CallsOne(OfTerminate(AFinishKill(n, c)));
  }

  lemma ReportCalls(n: Name, c: Caller, made: bool)
    ensures CallsOf(if !made then [] else [OfTerminate(AFinishReport(n, c))]) == Made(made, LauncherObject.OnStop)
  {
    CallsOne(OfTerminate(AFinishReport(n, c)));
  }

  lemma ThreeCalls(a: seq<Action>, b: seq<Action>, d: seq<Action>)
    ensures CallsOf(a + b + d) == CallsOf(a) + CallsOf(b) + CallsOf(d)
  {
    CallsAppend(a, b);
    CallsAppend(a + b, d);
  }

  lemma RemoveCalls(n: Name, c: Caller, w: LauncherObject.CleanupWorld, h: Hidden)
    ensures CallsOf(RemoveActions(n, c, w, h)) == [LauncherObject.RemoveRecord]
  {
    CallsOne(OfRelease(AFinishRemove(n, c)));
    CallsOne(OfRelease(AFinishDelete(n, c)));
    CallsOne(OfRelease(AFinishRemoveError(n, c, h.recordGone)));
    CallsAppend([OfRelease(AFinishRemove(n, c))], [OfRelease(AFinishDelete(n, c))]);
    assert [OfRelease(AFinishRemove(n, c))] + [OfRelease(AFinishDelete(n, c))] ==
           [OfRelease(AFinishRemove(n, c)), OfRelease(AFinishDelete(n, c))];
  }

  lemma ReleaseCalls(n: Name, c: Caller, st: RunnerState, w: LauncherObject.CleanupWorld, h: Hidden)
    ensures CallsOf(ReleaseActions(n, c, st, w, h)) ==
            Made(MustDeregister(st), LauncherObject.Deregister) +
            Made(!MustDeregister(st) || w.deregistered, LauncherObject.RemoveRecord)
  {
    RemoveCalls(n, c, w, h);
    CallsOne(OfRelease(AFinishKeepRegistration(n, c)));
    CallsOne(OfRelease(AFinishDeregister(n, c)));
    CallsOne(OfRelease(AFinishDeregisterError(n, c, h.deregistered)));
    CallsAppend([OfRelease(AFinishKeepRegistration(n, c))], RemoveActions(n, c, w, h));
    CallsAppend([OfRelease(AFinishDeregister(n, c))], RemoveActions(n, c, w, h));
  }

  lemma CallListIs(kill: bool, stop: bool, deregister: bool, remove: bool)
    ensures LauncherObject.CallList(kill, stop, deregister, remove) ==
            (Made(kill, LauncherObject.Kill) + Made(stop, LauncherObject.OnStop)) +
            (Made(deregister, LauncherObject.Deregister) + Made(remove, LauncherObject.RemoveRecord))
  {}

  lemma BeginCalls(n: Name, c: Caller)
    ensures CallsOf([OfTerminate(AFinishEnter(n, c)), OfTerminate(AFinishBegin(n, c))]) == []
  {
    CallsOne(OfTerminate(AFinishBegin(n, c)));
    assert [OfTerminate(AFinishEnter(n, c)), OfTerminate(AFinishBegin(n, c))][1..] == [OfTerminate(AFinishBegin(n, c))];
  }

  lemma LaterCalls(n: Name, c: Caller, st: RunnerState, terminate: bool, w: LauncherObject.CleanupWorld, h: Hidden)
    ensures var dead := Confirmed(st, terminate, w);
      CallsOf(LaterActions(n, c, st, terminate, w, h)) ==
      Made(dead && MustDeregister(st), LauncherObject.Deregister) +
      Made(dead && (!MustDeregister(st) || w.deregistered), LauncherObject.RemoveRecord)
  {
    ReleaseCalls(n, c, st, w, h);
  }

  lemma BegunCalls(n: Name, c: Caller, st: RunnerState, terminate: bool, w: LauncherObject.CleanupWorld, h: Hidden)
    ensures CallsOf([OfTerminate(AFinishEnter(n, c)), OfTerminate(AFinishBegin(n, c))] +
                    TerminateActions(n, c, st, terminate, w, h) + LaterActions(n, c, st, terminate, w, h)) ==
            LauncherObject.Advance(st, terminate, w).calls
  {
    var dead := Confirmed(st, terminate, w);
    var first: seq<Action> := [OfTerminate(AFinishEnter(n, c)), OfTerminate(AFinishBegin(n, c))];
    ThreeCalls(first, TerminateActions(n, c, st, terminate, w, h), LaterActions(n, c, st, terminate, w, h));
    BeginCalls(n, c);
    TerminateCalls(n, c, st, terminate, w, h);
    LaterCalls(n, c, st, terminate, w, h);
    CallListIs(!st.terminated && terminate, !st.terminated && dead && !st.stopReported, dead && MustDeregister(st),
               dead && (!MustDeregister(st) || w.deregistered));
    NothingFirst(CallsOf(TerminateActions(n, c, st, terminate, w, h)));
  }

  lemma NothingFirst(calls: seq<LauncherObject.CleanupCall>)
    ensures [] + calls == calls
  {}

  /** The calls that the object lists are those of the protocol's steps, in their order. */
  lemma CallsAreListed(n: Name, c: Caller, st: RunnerState, f: Finish, w: LauncherObject.CleanupWorld, h: Hidden)
    ensures CallsOf(CleanupActions(n, c, st, f, w, h)) ==
            LauncherObject.Cleanup(st, f.code, f.waitErr, f.terminate, w).calls
  {
    if st.cleaned {
      CallsOne(OfTerminate(AFinishAlready(n, c)));
    } else {
      BegunCalls(n, c, StartCleanup(st, f.code, f.waitErr, f.terminate), f.terminate, w, h);
    }
  }
}
