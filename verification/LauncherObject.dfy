/**
 * The launcher as the object its goroutines call. Each method is the code of one critical section,
 * or one uninterrupted run of a longer method; what the world answers comes in as arguments.
 */
module LauncherObject {
  import opened Common
  import opened LauncherState
  import LauncherProtocol

  // ---------------------------------------------------------------- one launch

  /** What shortID, GenerateJitRunnerConfig, Launch and RemoveRunner answer to one launch. */
  datatype LaunchWorld = LaunchWorld(
    name: Option<Name>,
    id: Option<RunnerId>,
    outcome: LauncherProtocol.Outcome,
    removed: bool)

  predicate Launches(w: LaunchWorld) {
    Tracks(w) && w.outcome.Started?
  }

  /** The launch got a name, a registration and an instance that may be alive. */
  predicate Tracks(w: LaunchWorld) {
    Registers(w) && !w.outcome.Absent?
  }

  predicate Registers(w: LaunchWorld) {
    w.name.Some? && w.id.Some? && w.id.value != 0
  }

  function LaunchResult(l: LauncherState, w: LaunchWorld): LauncherState {
    l.(seqNo := l.seqNo + 1,
       states := if Tracks(w)
                 then l.states[w.name.value := FreshRunner(w.outcome.handle, w.id.value, w.outcome.Unproven?)]
                 else l.states,
       running := if Tracks(w) then l.running + {w.name.value} else l.running,
       pendingRegistrations := if Registers(w) && w.outcome.Absent? && !w.removed
                               then l.pendingRegistrations[w.id.value := w.name.value] else l.pendingRegistrations)
  }

  /** Up to `n` launches; the first failure ends the loop. */
  function LaunchLoop(l: LauncherState, n: nat, world: nat -> LaunchWorld, i: nat): LauncherState
    decreases n
  {
    if n == 0 then l
    else if Launches(world(i)) then LaunchLoop(LaunchResult(l, world(i)), n - 1, world, i + 1)
    else LaunchResult(l, world(i))
  }

  lemma OneMoreOccupies(l: LauncherState, w: LaunchWorld)
    ensures |Occupying(LaunchResult(l, w))| <= |Occupying(l)| + 1
  {
    if Tracks(w) {
      SubsetSize(Occupying(LaunchResult(l, w)), Occupying(l) + {w.name.value});
    } else {
      assert Occupying(LaunchResult(l, w)) == Occupying(l);
    }
  }

  /** A launch loop adds at most as many runners as it was allowed. */
  lemma {:induction false} LoopOccupies(l: LauncherState, n: nat, world: nat -> LaunchWorld, i: nat)
    ensures |Occupying(LaunchLoop(l, n, world, i))| <= |Occupying(l)| + n
    ensures LaunchLoop(l, n, world, i).pendingExits == l.pendingExits && LaunchLoop(l, n, world, i).desired == l.desired
    ensures LaunchLoop(l, n, world, i).maxRunners == l.maxRunners
    decreases n
  {
    if n > 0 {
      OneMoreOccupies(l, world(i));
      if Launches(world(i)) { LoopOccupies(LaunchResult(l, world(i)), n - 1, world, i + 1); }
    }
  }

  lemma OccupyingShrinks(l: LauncherState, l': LauncherState)
    requires l'.running <= l.running && l'.states.Keys == l.states.Keys
    requires forall n | n in l'.states && l'.states[n].occupiesCapacity :: n in l.states && l.states[n].occupiesCapacity
    ensures |Occupying(l')| <= |Occupying(l)|
  {
    SubsetSize(Occupying(l'), Occupying(l));
  }

  lemma StatisticsShrink(l: LauncherState, count: int)
    requires l.running <= l.states.Keys
    ensures |Occupying(ApplyStatistics(l, count))| <= |Occupying(l)|
  {
    OccupyingShrinks(l, ApplyStatistics(l, count));
  }

  lemma RoundShrinks(r: Round, todo: set<Name>, l: LauncherState, l': LauncherState)
    requires r.was == l.states && r.started == l.running && InRound(r, todo, l'.states, l'.running)
    ensures |Occupying(l')| <= |Occupying(l)|
  {
    OccupyingShrinks(l, l');
  }

  /** Serving a count never exceeds the cap or the demand net of unaccounted exits. */
  lemma ServingStaysWithin(l: LauncherState, want: int, world: nat -> LaunchWorld)
    ensures var l' := LaunchLoop(l, Allowed(l, want), world, 0);
      && (l.maxRunners > 0 && |Occupying(l)| <= l.maxRunners ==> |Occupying(l')| <= l.maxRunners)
      && (Allowed(l, want) > 0 ==> |Occupying(l')| + |l'.pendingExits| <= want)
  {
    LoopOccupies(l, Allowed(l, want), world, 0);
  }

  /** When every launch succeeds under a fresh name, demand is met exactly, up to the cap. */
  lemma ServingMeetsDemand(l: LauncherState, want: int, world: nat -> LaunchWorld)
    requires l.running <= l.states.Keys
    requires forall i :: LaunchesFresh(l, world(i))
    requires forall i, j :: i < j ==> world(i).name != world(j).name
    ensures var l' := LaunchLoop(l, Allowed(l, want), world, 0); var have := |Occupying(l)|;
      var net := want - |l.pendingExits|;
      |Occupying(l')| == if net <= have || (l.maxRunners > 0 && l.maxRunners <= have) then have
                         else if l.maxRunners > 0 && l.maxRunners < net then l.maxRunners else net
  {
    AllLaunched(l, Allowed(l, want), world, 0);
  }

  lemma OneLaunched(l: LauncherState, w: LaunchWorld)
    requires LaunchesFresh(l, w) && l.running <= l.states.Keys
    ensures Occupying(LaunchResult(l, w)) == Occupying(l) + {w.name.value}
  {
    var l', name := LaunchResult(l, w), w.name.value;
    assert l'.states == l.states[name := FreshRunner(w.outcome.handle, w.id.value, false)];
    assert l'.running == l.running + {name};
    forall m ensures m in Occupying(l') <==> m in Occupying(l) + {name} {}
  }

  lemma StatesAfterLaunch(l: LauncherState, w: LaunchWorld)
    requires LaunchesFresh(l, w) && l.running <= l.states.Keys
    ensures LaunchResult(l, w).running <= LaunchResult(l, w).states.Keys
    ensures forall n | n in LaunchResult(l, w).states :: n in l.states || n == w.name.value
  {}

  predicate LaunchesFresh(l: LauncherState, w: LaunchWorld) {
    Launches(w) && w.name.value !in l.states
  }

  lemma {:induction false} AllLaunched(l: LauncherState, n: nat, world: nat -> LaunchWorld, i: nat)
    requires l.running <= l.states.Keys
    requires forall k | k >= i :: LaunchesFresh(l, world(k))
    requires forall k, m :: k < m ==> world(k).name != world(m).name
    ensures |Occupying(LaunchLoop(l, n, world, i))| == |Occupying(l)| + n
    decreases n
  {
    if n > 0 {
      assert LaunchesFresh(l, world(i));
      OneLaunched(l, world(i));
      StatesAfterLaunch(l, world(i));
      var l' := LaunchResult(l, world(i));
      assert world(i).name.value !in Occupying(l);
      forall k | k >= i + 1 ensures LaunchesFresh(l', world(k)) {
        assert LaunchesFresh(l, world(k)) && world(i).name != world(k).name;
      }
      AllLaunched(l', n - 1, world, i + 1);
    }
  }

  // ---------------------------------------------------------------- one cleanup

  /** What Kill, RemoveRunner and RemoveOwnedRunner answer. */
  datatype CleanupWorld = CleanupWorld(killed: bool, deregistered: bool, recordRemoved: bool)

  datatype CleanupCall = Kill | OnStop | Deregister | RemoveRecord

  /** The state after a cleanup, the calls it made in order, and whether it reports an error. */
  datatype Cleaned = Cleaned(st: RunnerState, calls: seq<CleanupCall>, failed: bool)

  function Cleanup(st: RunnerState, code: int, waitErr: bool, terminate: bool, w: CleanupWorld): Cleaned {
    if st.cleaned then Cleaned(st, [], false)
    else Advance(StartCleanup(st, code, waitErr, terminate), terminate, w)
  }

  type States = map<Name, RunnerState>

  /** What a round of cleanups makes of each runner it takes up. */
  type Outcomes = map<Name, Cleaned>

  /** Cleanups that have begun are taken up again with the exit they noted. */
  ghost function Retries(l: LauncherState, world: Name -> CleanupWorld): Outcomes {
    map n | n in l.running && n in l.states && l.states[n].cleanupStarted ::
      Cleanup(l.states[n], l.states[n].exitCode, l.states[n].waitErr, true, world(n))
  }

  ghost function ShutDowns(l: LauncherState, world: Name -> CleanupWorld): Outcomes {
    map n | n in l.running && n in l.states :: Cleanup(l.states[n], -1, false, true, world(n))
  }

  /** Those of `goal` that are not still to do have their new state, and nothing else changed. */
  predicate Attempted(was: States, goal: Outcomes, todo: set<Name>, now: States) {
    && goal.Keys <= was.Keys == now.Keys
    && forall n | n in now :: now[n] == if n in goal && n !in todo then goal[n].st else was[n]
  }

  lemma AttemptNext(was: States, goal: Outcomes, todo: set<Name>, now: States, name: Name)
    requires Attempted(was, goal, todo, now) && name in todo && name in goal
    ensures now[name] == was[name] && Attempted(was, goal, todo - {name}, now[name := goal[name].st])
  {}

  ghost predicate AnyFailed(goal: Outcomes, todo: set<Name>) {
    exists n :: n in goal && n !in todo && goal[n].failed
  }

  /** A round of cleanups: the states and the running names at its start, and the outcomes. */
  datatype Round = Round(was: States, started: set<Name>, goal: Outcomes)

  /** A round in progress: exactly the cleaned ones leave, and no slot is taken. */
  ghost predicate InRound(r: Round, todo: set<Name>, now: States, running: set<Name>) {
    && Attempted(r.was, r.goal, todo, now) && running <= r.started
    && (forall n | n in r.started && n !in running :: n in r.goal && n !in todo && n in now && now[n].cleaned)
    && (forall n | n in r.goal && n !in todo && !r.goal[n].failed :: n !in running)
    && (forall n | n in now && now[n].occupiesCapacity :: n in r.was && r.was[n].occupiesCapacity)
  }

  lemma RoundBegins(r: Round)
    requires r.goal.Keys <= r.was.Keys
    ensures InRound(r, r.goal.Keys, r.was, r.started) && !AnyFailed(r.goal, r.goal.Keys)
  {}

  lemma RoundGoesOn(r: Round, todo: set<Name>, now: States, running: set<Name>, name: Name,
                    now': States, running': set<Name>)
    requires InRound(r, todo, now, running) && name in todo && name in r.goal
    requires now' == now[name := r.goal[name].st] && (now'[name].occupiesCapacity ==> now[name].occupiesCapacity)
    requires running' == running || (running' == running - {name} && now'[name].cleaned)
    requires !r.goal[name].failed ==> name !in running'
    ensures InRound(r, todo - {name}, now', running')
    ensures AnyFailed(r.goal, todo - {name}) <==> AnyFailed(r.goal, todo) || r.goal[name].failed
  {
    AttemptNext(r.was, r.goal, todo, now, name);
    if AnyFailed(r.goal, todo) {
      var n :| n in r.goal && n !in todo && r.goal[n].failed;
      assert n !in todo - {name};
    }
  }

  /** One runner of a round that terminates: what the round made of it. */
  predicate RoundMade(was: RunnerState, now: RunnerState, listed: bool, code: int, waitErr: bool, w: CleanupWorld) {
    && (now.terminated <==> was.terminated || w.killed) && (listed <==> !now.cleaned)
    && (w.killed && w.deregistered && w.recordRemoved ==> now.cleaned)
    && (was.cleanupStarted ==>
          now.needsDeregistration == was.needsDeregistration && now.exitCode == was.exitCode
          && now.waitErr == was.waitErr)
    && (!was.cleanupStarted ==> now.needsDeregistration && now.exitCode == code && now.waitErr == waitErr)
  }

  lemma RoundMakes(r: Round, todo: set<Name>, now: States, running: set<Name>, n: Name,
                   code: int, waitErr: bool, w: CleanupWorld)
    requires InRound(r, todo, now, running) && n in r.goal && n !in todo && n in r.started
    requires r.goal[n] == Cleanup(r.was[n], code, waitErr, true, w) && Orderly(r.was[n]) && !r.was[n].cleaned
    requires n in running ==> !now[n].cleaned
    ensures n in now && RoundMade(r.was[n], now[n], n in running, code, waitErr, w)
    ensures r.goal[n].failed <==> n in running || now[n].waitErr
  {
    CleanupDecides(r.was[n], code, waitErr, true, w);
  }

  ghost predicate AllStarted(l: LauncherState) {
    l.running <= l.states.Keys && forall n | n in l.running :: Orderly(l.states[n]) && !l.states[n].cleaned
  }

  ghost predicate NoneCleaned(now: States, running: set<Name>) {
    forall n | n in running :: n in now && !now[n].cleaned
  }

  /** Some runner is still listed, or its Wait failed. */
  ghost predicate Unfinished(names: set<Name>, now: States, running: set<Name>) {
    exists n :: n in names && (n in running || (n in now && now[n].waitErr))
  }

  /** So many tries for the cleanups that are no longer to do; the session ends after `ends` of them. */
  predicate Counted(all: set<Name>, todo: set<Name>, tries: nat, ends: nat, complete: bool) {
    tries + |todo| <= |all| && (!complete ==> tries >= ends && todo != {})
  }

  lemma CountOneMore(all: set<Name>, todo: set<Name>, tries: nat, ends: nat, name: Name)
    requires Counted(all, todo, tries, ends, true) && name in todo
    ensures Counted(all, todo - {name}, tries + 1, ends, tries + 1 < ends || todo == {name})
  {
    if todo != {name} { assert todo - {name} != {}; }
  }

  lemma CountedOut(all: set<Name>, left: set<Name>, tries: nat, ends: nat, complete: bool)
    requires Counted(all, left, tries, ends, complete)
    ensures ends >= |all| ==> complete
  {}

  lemma RetriesMade(l: LauncherState, world: Name -> CleanupWorld, left: set<Name>, now: States, running: set<Name>)
    requires AllStarted(l) && NoneCleaned(now, running)
    requires InRound(Round(l.states, l.running, Retries(l, world)), left, now, running)
    ensures Retried(l.states, l.running, left, world, now, running)
    ensures AnyFailed(Retries(l, world), left) <==>
            Unfinished((set n | n in l.running && n !in left && l.states[n].cleanupStarted), now, running)
  {
    var r := Round(l.states, l.running, Retries(l, world));
    forall n | n in r.goal && n !in left
      ensures n in now && RoundMade(r.was[n], now[n], n in running, r.was[n].exitCode, r.was[n].waitErr, world(n))
      ensures r.goal[n].failed <==> n in running || now[n].waitErr
    {
      RoundMakes(r, left, now, running, n, r.was[n].exitCode, r.was[n].waitErr, world(n));
    }
  }

  /** The cleanups that had begun, but for those in `left`, have been taken up once more. */
  ghost predicate Retried(was: States, running: set<Name>, left: set<Name>, world: Name -> CleanupWorld, now: States,
                          running': set<Name>) {
    forall n | n in running && n in was && was[n].cleanupStarted && n !in left ::
      n in now && RoundMade(was[n], now[n], n in running', was[n].exitCode, was[n].waitErr, world(n))
  }

  /** Accounting for completions changes nothing that a retry looks at. */
  lemma RetriedSince(l: LauncherState, count: int, left: set<Name>, world: Name -> CleanupWorld, now: States,
                     running: set<Name>)
    requires Retried(ApplyStatistics(l, count).states, l.running, left, world, now, running)
    ensures Retried(l.states, l.running, left, world, now, running)
  {
    forall n | n in l.running && n in l.states && l.states[n].cleanupStarted && n !in left
      ensures n in now &&
              RoundMade(l.states[n], now[n], n in running, l.states[n].exitCode, l.states[n].waitErr, world(n))
    {
      var was := ApplyStatistics(l, count).states[n];
      assert was == l.states[n].(completionAccounted := was.completionAccounted);
    }
  }

  lemma ShutDownsMade(l: LauncherState, world: Name -> CleanupWorld, now: States, running: set<Name>)
    requires AllStarted(l) && NoneCleaned(now, running)
    requires InRound(Round(l.states, l.running, ShutDowns(l, world)), {}, now, running)
    ensures forall n | n in l.running :: n in now && RoundMade(l.states[n], now[n], n in running, -1, false, world(n))
    ensures AnyFailed(ShutDowns(l, world), {}) <==> Unfinished(l.running, now, running)
  {
    var r := Round(l.states, l.running, ShutDowns(l, world));
    forall n | n in r.goal
      ensures n in now && RoundMade(r.was[n], now[n], n in running, -1, false, world(n))
      ensures r.goal[n].failed <==> n in running || now[n].waitErr
    {
      RoundMakes(r, {}, now, running, n, -1, false, world(n));
    }
  }

  /** A started cleanup goes as far as its calls succeed. */
  function Advance(st: RunnerState, terminate: bool, w: CleanupWorld): Cleaned {
    var dead := st.terminated || !terminate || w.killed;
    var gone := dead && (!MustDeregister(st) || w.deregistered);
    Cleaned(
      st.(terminated := dead,
          occupiesCapacity := st.occupiesCapacity && (st.terminated || !dead),
          stopReported := st.stopReported || (!st.terminated && dead),
          registrationRemoved := st.registrationRemoved || (MustDeregister(st) && gone),
          cleaned := st.cleaned || (gone && w.recordRemoved)),
      CallList(!st.terminated && terminate, !st.terminated && dead && !st.stopReported,
               dead && MustDeregister(st), gone),
      !gone || !w.recordRemoved || st.waitErr)
  }

  function CallList(kill: bool, stop: bool, deregister: bool, remove: bool): seq<CleanupCall> {
    After(After(After(After([], kill, Kill), stop, OnStop), deregister, Deregister), remove, RemoveRecord)
  }

  function After(calls: seq<CleanupCall>, made: bool, call: CleanupCall): seq<CleanupCall> {
    if made then calls + [call] else calls
  }

  function Rank(c: CleanupCall): nat {
    match c case Kill => 0 case OnStop => 1 case Deregister => 2 case RemoveRecord => 3
  }

  predicate InOrder(calls: seq<CleanupCall>) {
    forall i, j | 0 <= i < j < |calls| :: Rank(calls[i]) < Rank(calls[j])
  }

  lemma CallsListed(kill: bool, stop: bool, deregister: bool, remove: bool)
    ensures var c := CallList(kill, stop, deregister, remove);
      && InOrder(c) && (Kill in c <==> kill) && (OnStop in c <==> stop)
      && (Deregister in c <==> deregister) && (RemoveRecord in c <==> remove)
  {}

  /** The state a cleanup can be called on: no stage is ahead of an earlier one. */
  predicate Orderly(st: RunnerState) {
    && (st.terminated ==> st.cleanupStarted && !st.occupiesCapacity && st.stopReported)
    && (st.registrationRemoved ==> st.terminated)
    && (st.cleaned ==> st.terminated && !MustDeregister(st))
  }

  lemma AdvanceOrdered(st: RunnerState, terminate: bool, w: CleanupWorld)
    requires Orderly(st) && st.cleanupStarted && !st.cleaned
    ensures var c := Advance(st, terminate, w);
      && Orderly(c.st) && InOrder(c.calls)
      && (Kill in c.calls ==> !st.terminated && (w.killed ==> c.st.terminated))
      && (OnStop in c.calls ==> !st.stopReported && c.st.stopReported && c.st.terminated)
      && (Deregister in c.calls ==>
            c.st.terminated && !st.registrationRemoved && (w.deregistered ==> c.st.registrationRemoved))
      && (RemoveRecord in c.calls ==> c.st.terminated && !MustDeregister(c.st) && (w.recordRemoved ==> c.st.cleaned))
      && (!c.failed ==> c.st.cleaned)
  {
    var dead := st.terminated || !terminate || w.killed;
    CallsListed(!st.terminated && terminate, !st.terminated && dead && !st.stopReported, dead && MustDeregister(st),
                dead && (!MustDeregister(st) || w.deregistered));
  }

  /**
   * Calls come in the fixed order, each at most once and only when the earlier stages are done, and
   * a call that succeeded is on record afterwards.
   */
  lemma CleanupOrdered(st: RunnerState, code: int, waitErr: bool, terminate: bool, w: CleanupWorld)
    requires Orderly(st)
    ensures var c := Cleanup(st, code, waitErr, terminate, w);
      && Orderly(c.st) && InOrder(c.calls)
      && (Kill in c.calls ==> !st.terminated && (w.killed ==> c.st.terminated))
      && (OnStop in c.calls ==> !st.stopReported && c.st.stopReported && c.st.terminated)
      && (Deregister in c.calls ==>
            c.st.terminated && !st.registrationRemoved && (w.deregistered ==> c.st.registrationRemoved))
      && (RemoveRecord in c.calls ==>
            c.st.terminated && !st.cleaned && !MustDeregister(c.st) && (w.recordRemoved ==> c.st.cleaned))
      && (!c.failed ==> c.st.cleaned)
  {
    if !st.cleaned {
      var begun := StartCleanup(st, code, waitErr, terminate);
      AdvanceOrdered(begun, terminate, w);
    }
  }

  lemma CallsInTurn(kill: bool, stop: bool, deregister: bool, remove: bool)
    ensures var c := CallList(kill, stop, deregister, remove);
      c == (if Kill in c then [Kill] else []) + (if OnStop in c then [OnStop] else [])
           + (if Deregister in c then [Deregister] else []) + (if RemoveRecord in c then [RemoveRecord] else [])
  {
    CallsListed(kill, stop, deregister, remove);
  }

  lemma AdvanceDecides(st: RunnerState, terminate: bool, w: CleanupWorld)
    requires Orderly(st) && st.cleanupStarted && !st.cleaned
    ensures var c := Advance(st, terminate, w); var now := c.st;
      && (now.terminated <==> st.terminated || !terminate || w.killed)
      && (Kill in c.calls <==> terminate && !st.terminated)
      && (OnStop in c.calls <==> now.terminated && !st.stopReported)
      && (Deregister in c.calls <==>
            now.terminated && st.runnerID != 0 && st.needsDeregistration && !st.registrationRemoved)
      && (RemoveRecord in c.calls <==> now.terminated && (Deregister in c.calls ==> w.deregistered))
      && (now.registrationRemoved <==> st.registrationRemoved || (Deregister in c.calls && w.deregistered))
      && (now.cleaned <==> RemoveRecord in c.calls && w.recordRemoved)
      && (c.failed <==> !now.cleaned || now.waitErr)
  {
    var dead := st.terminated || !terminate || w.killed;
    CallsListed(!st.terminated && terminate, !st.terminated && dead && !st.stopReported, dead && MustDeregister(st),
                dead && (!MustDeregister(st) || w.deregistered));
  }

  /**
   * What a cleanup of `st` made of it, `now`. The first call settles whether the runner is deregistered:
   * unless it is busy and not to be terminated. The exit on record is that of the first call or of a later
   * one that does not terminate, and the calls made follow from both.
   */
  predicate Decided(st: RunnerState, code: int, waitErr: bool, terminate: bool, w: CleanupWorld, now: RunnerState,
                    calls: seq<CleanupCall>, failed: bool) {
    && now.cleanupStarted && (now.terminated <==> st.terminated || !terminate || w.killed)
    && (now.occupiesCapacity <==> st.occupiesCapacity && !now.terminated)
    && (Kill in calls <==> terminate && !st.terminated)
    && (OnStop in calls <==> now.terminated && !st.stopReported)
    && (!st.cleanupStarted ==>
          && (now.needsDeregistration <==> terminate || !st.busy)
          && (Deregister in calls <==> st.runnerID != 0 && now.terminated && (terminate || !st.busy)))
    && (st.cleanupStarted ==>
          && (now.needsDeregistration <==> st.needsDeregistration)
          && (Deregister in calls <==>
                st.runnerID != 0 && now.terminated && st.needsDeregistration && !st.registrationRemoved))
    && (RemoveRecord in calls <==> now.terminated && (Deregister in calls ==> w.deregistered))
    && (now.registrationRemoved <==> st.registrationRemoved || (Deregister in calls && w.deregistered))
    && (now.cleaned <==> RemoveRecord in calls && w.recordRemoved) && (failed <==> !now.cleaned || now.waitErr)
    && now.exitCode == (if st.cleanupStarted && terminate then st.exitCode else code)
    && now.waitErr == (if st.cleanupStarted && terminate then st.waitErr else waitErr)
    && now.handle == st.handle && now.runnerID == st.runnerID && now.busy == st.busy
    && now.completionAccounted == st.completionAccounted
  }

  /** Every cleanup decides so. */
  lemma CleanupDecides(st: RunnerState, code: int, waitErr: bool, terminate: bool, w: CleanupWorld)
    requires Orderly(st) && !st.cleaned
    ensures var c := Cleanup(st, code, waitErr, terminate, w);
      Decided(st, code, waitErr, terminate, w, c.st, c.calls, c.failed)
  {
    AdvanceDecides(StartCleanup(st, code, waitErr, terminate), terminate, w);
  }

  /** The calls of a cleanup are made in turn. */
  lemma CleanupTakesTurns(st: RunnerState, code: int, waitErr: bool, terminate: bool, w: CleanupWorld)
    requires !st.cleaned
    ensures var c := Cleanup(st, code, waitErr, terminate, w).calls;
      c == (if Kill in c then [Kill] else []) + (if OnStop in c then [OnStop] else [])
           + (if Deregister in c then [Deregister] else []) + (if RemoveRecord in c then [RemoveRecord] else [])
  {
    var begun := StartCleanup(st, code, waitErr, terminate);
    var dead := st.terminated || !terminate || w.killed;
    CallsInTurn(!st.terminated && terminate, !st.terminated && dead && !st.stopReported, dead && MustDeregister(begun),
                dead && (!MustDeregister(begun) || w.deregistered));
  }

  lemma CleanupKeepsOrder(st: RunnerState, code: int, waitErr: bool, terminate: bool, w: CleanupWorld)
    requires Orderly(st)
    ensures var c := Cleanup(st, code, waitErr, terminate, w);
      Orderly(c.st) && (!c.failed ==> c.st.cleaned) && (c.st.occupiesCapacity ==> st.occupiesCapacity)
  {}

  /** A retry repeats no call that succeeded, and with a willing world it finishes the cleanup. */
  lemma RetryResumes(st: RunnerState, code: int, waitErr: bool, terminate: bool, w: CleanupWorld,
                     code': int, waitErr': bool, terminate': bool, w': CleanupWorld)
    requires Orderly(st)
    ensures var c := Cleanup(st, code, waitErr, terminate, w); var d := Cleanup(c.st, code', waitErr', terminate', w');
      && (Kill in c.calls && w.killed ==> Kill !in d.calls)
      && (OnStop in c.calls ==> OnStop !in d.calls)
      && (Deregister in c.calls && w.deregistered ==> Deregister !in d.calls)
      && (RemoveRecord in c.calls && w.recordRemoved ==> d.calls == [])
      && (w' == CleanupWorld(true, true, true) ==> d.st.cleaned)
  {
    var c := Cleanup(st, code, waitErr, terminate, w);
    CleanupOrdered(st, code, waitErr, terminate, w);
    CleanupOrdered(c.st, code', waitErr', terminate', w');
  }

  // ---------------------------------------------------------------- the object

  function AccountedOne(st: RunnerState, accounted: bool): RunnerState {
    if accounted then st.(completionAccounted := true) else st
  }

  function Accounted(l: LauncherState, names: set<Name>): map<Name, RunnerState> {
    map n | n in l.states :: AccountedOne(l.states[n], n in names && n in l.running)
  }

  function Holders(states: States, names: set<Name>): set<Name> {
    set n | n in names && n in states && states[n].occupiesCapacity
  }

  lemma HoldersNext(states: States, names: set<Name>, n: Name)
    requires n !in names && n in states
    ensures |Holders(states, names + {n})| == |Holders(states, names)| + if states[n].occupiesCapacity then 1 else 0
  {
    assert Holders(states, names + {n}) == Holders(states, names) + if states[n].occupiesCapacity then {n} else {};
  }

  lemma AccountedNext(l: LauncherState, names: set<Name>, n: Name)
    ensures Accounted(l, names + {n}) ==
            if n in l.running && n in l.states
            then Accounted(l, names)[n := Accounted(l, names)[n].(completionAccounted := true)] else Accounted(l, names)
  {
    var next, before := Accounted(l, names + {n}), Accounted(l, names);
    forall m | m in l.states && m != n ensures next[m] == before[m] { assert m in names + {n} <==> m in names; }
    if n in l.states {
      assert next == before[n := next[n]];
    } else {
      assert next == before;
    }
  }

  class Launcher {
    const maxRunners: int
    var states: map<Name, RunnerState>
    var running: set<Name>
    var pendingRegistrations: map<RunnerId, Name>
    var pendingExits: map<Name, RunnerId>
    var completions: set<Name>
    var seqNo: nat
    var desired: int
    var stopped: bool

    ghost predicate Valid()
      reads this
    {
      running <= states.Keys && forall n | n in states :: Orderly(states[n]) && (n in running ==> !states[n].cleaned)
    }

    ghost function View(): LauncherState
      reads this
    {
      LauncherState(maxRunners, states, running, pendingRegistrations, pendingExits, completions,
                    seqNo, desired, stopped)
    }

    constructor (maxRunners: int)
      ensures Valid() && View() == New(maxRunners) && this.maxRunners == maxRunners
      ensures states == map[] && running == {} && pendingRegistrations == map[] && pendingExits == map[]
      ensures completions == {} && seqNo == 0 && desired == 0 && !stopped
    {
      this.maxRunners := maxRunners;
      states, running, pendingRegistrations := map[], {}, map[];
      pendingExits, completions, seqNo, desired, stopped := map[], {}, 0, 0, false;
    }

    method RunningLocked() returns (count: nat)
      requires Valid()
      ensures count == |Occupying(View())|
    {
      count := 0;
      var todo := running;
      ghost var seen: set<Name> := {};
      while todo != {}
        invariant todo + seen == running && todo !! seen
        invariant count == |Holders(states, seen)|
        decreases todo
      {
        var n :| n in todo;
        HoldersNext(states, seen, n);
        if states[n].occupiesCapacity { count := count + 1; }
        todo, seen := todo - {n}, seen + {n};
      }
      assert Holders(states, running) == Occupying(View());
    }

    method AllowedLocked(want: int) returns (start: nat)
      requires Valid()
      ensures start == Allowed(View(), want)
    {
      var net := want - |pendingExits|;
      var have := RunningLocked();
      if net <= have { return 0; }
      start := net - have;
      if maxRunners > 0 {
        var free := maxRunners - have;
        if free <= 0 { return 0; }
        if start > free { start := free; }
      }
    }

    /** First critical section of HandleDesiredRunnerCount. */
    method BeginStatistics(count: int) returns (refused: bool)
      requires Valid()
      modifies this
      ensures Valid() && refused == old(stopped)
      ensures View() == if refused then old(View()) else ApplyStatistics(old(View()), count)
      ensures !refused ==> desired == count && completions == {} && running == old(running)
      ensures !refused ==> pendingExits == if count == 0 then map[] else old(pendingExits) - old(completions)
      ensures !refused ==> (
        states.Keys == old(states).Keys &&
        forall n | n in states :: states[n] == if n in running && n in old(completions)
                                               then old(states)[n].(completionAccounted := true) else old(states)[n])
    {
      if stopped { return true; }
      ApplyCompletions();
      if count == 0 { pendingExits := map[]; }
      desired := count;
      return false;
    }

    method ApplyCompletions()
      modifies this`states, this`pendingExits, this`completions
      ensures states == Accounted(old(View()), old(completions))
      ensures pendingExits == old(pendingExits) - old(completions) && completions == {}
    {
      ghost var was := View();
      var todo := completions;
      ghost var seen: set<Name> := {};
      while todo != {}
        modifies this`states, this`pendingExits
        invariant todo + seen == was.completions && todo !! seen
        invariant pendingExits == was.pendingExits - seen
        invariant states == Accounted(was, seen)
        decreases todo
      {
        var n :| n in todo;
        AccountedNext(was, seen, n);
        pendingExits := pendingExits - {n};
        if n in running && n in states { states := states[n := states[n].(completionAccounted := true)]; }
        todo, seen := todo - {n}, seen + {n};
      }
      completions := {};
      assert seen == was.completions;
    }

    /** Second critical section: launch until the demand or the cap is met. */
    method ServeDemand(count: int, world: nat -> LaunchWorld) returns (serving: nat)
      requires Valid()
      modifies this
      ensures Valid() && serving == |Occupying(View())|
      ensures View() == if old(stopped) then old(View())
                        else LaunchLoop(old(View()), Allowed(old(View()), count), world, 0)
    {
      if !stopped {
        ghost var was := View();
        var n := AllowedLocked(count);
        ghost var all := n;
        var i := 0;
        var failed := false;
        while n > 0 && !failed
          invariant Valid()
          invariant LaunchLoop(was, all, world, 0) == if failed then View() else LaunchLoop(View(), n, world, i)
          decreases n, !failed
        {
          failed := LaunchLocked(world(i));
          if !failed { n, i := n - 1, i + 1; }
        }
      }
      serving := RunningLocked();
    }

    method LaunchLocked(w: LaunchWorld) returns (failed: bool)
      requires Valid()
      modifies this
      ensures Valid() && failed == !Launches(w) && View() == LaunchResult(old(View()), w)
      ensures seqNo == old(seqNo) + 1
      ensures failed <==> !(w.name.Some? && w.id.Some? && w.id.value != 0 && w.outcome.Started?)
      ensures w.name.None? || w.id.None? || w.id.value == 0 ==>
        states == old(states) && running == old(running) && pendingRegistrations == old(pendingRegistrations)
      ensures w.name.Some? && w.id.Some? && w.id.value != 0 && w.outcome.Absent? ==> (
        && states == old(states) && running == old(running)
        && pendingRegistrations == if w.removed then old(pendingRegistrations)
                                   else old(pendingRegistrations)[w.id.value := w.name.value])
      ensures w.name.Some? && w.id.Some? && w.id.value != 0 && !w.outcome.Absent? ==> (
        && running == old(running) + {w.name.value} && pendingRegistrations == old(pendingRegistrations)
        && states == old(states)[w.name.value :=
             RunnerState(w.outcome.handle, w.id.value, false, false, true, false, false, false, false, false,
                         w.outcome.Unproven?, 0, false)])
    {
      seqNo := seqNo + 1;
      if w.name.None? || w.id.None? || w.id.value == 0 { return true; }
      var name, id := w.name.value, w.id.value;
      match w.outcome {
        case Started(handle) =>
          states := states[name := FreshRunner(handle, id, false)];
          running := running + {name};
          failed := false;
        case Unproven(handle) =>
          states := states[name := FreshRunner(handle, id, true)];
          running := running + {name};
          failed := true;
        case Absent =>
          if !w.removed { pendingRegistrations := pendingRegistrations[id := name]; }
          failed := true;
      }
    }

    /** Map iteration order is arbitrary, so the first match may be any match. */
    method HandleJobStarted(job: Job) returns (ghost hit: Option<Name>)
      requires Valid()
      modifies this`states
      ensures Valid() && StartedHit(old(View()), job, hit) && View() == MarkBusy(old(View()), hit)
      ensures hit.Some? ==> (
        hit.value in running && (
          || (job.runnerID != 0 && states[hit.value].runnerID == job.runnerID)
          || (job.runnerName != "" && hit.value == job.runnerName)))
      ensures hit.None? ==> (
        forall n | n in running ::
          (job.runnerID != 0 ==> states[n].runnerID != job.runnerID) &&
          (job.runnerName != "" ==> n != job.runnerName))
      ensures states == if hit.None? then old(states)
                        else old(states)[hit.value := old(states)[hit.value].(busy := true)]
    {
      hit := None;
      var todo := running;
      while todo != {}
        invariant todo <= running && states == old(states)
        invariant forall n | n in running && n !in todo :: !RunningMatch(old(View()), job, n)
        decreases todo
      {
        var n :| n in todo;
        if Matches(job, n, states[n].runnerID) {
          states := states[n := states[n].(busy := true)];
          hit := Some(n);
          return;
        }
        todo := todo - {n};
      }
    }

    method HandleJobCompleted(job: Job) returns (ghost hit: Option<Name>)
      requires Valid()
      modifies this`completions
      ensures Valid() && CompletedHit(old(View()), job, hit) && View() == NoteCompletion(old(View()), hit)
      ensures completions == if hit.None? then old(completions) else old(completions) + {hit.value}
      ensures hit.Some? ==> (
        || (hit.value in running && (
              || (job.runnerID != 0 && states[hit.value].runnerID == job.runnerID)
              || (job.runnerName != "" && hit.value == job.runnerName)))
        || (hit.value in pendingExits && (
              || (job.runnerID != 0 && pendingExits[hit.value] == job.runnerID)
              || (job.runnerName != "" && hit.value == job.runnerName))))
      ensures hit.None? || hit.value !in running ==> (
        forall n | n in running ::
          (job.runnerID != 0 ==> states[n].runnerID != job.runnerID) &&
          (job.runnerName != "" ==> n != job.runnerName))
      ensures hit.None? ==> (
        forall n | n in pendingExits ::
          (job.runnerID != 0 ==> pendingExits[n] != job.runnerID) &&
          (job.runnerName != "" ==> n != job.runnerName))
    {
      hit := None;
      var todo := running;
      while todo != {}
        invariant todo <= running && completions == old(completions)
        invariant forall n | n in running && n !in todo :: !RunningMatch(old(View()), job, n)
        decreases todo
      {
        var n :| n in todo;
        if Matches(job, n, states[n].runnerID) {
          completions := completions + {n};
          hit := Some(n);
          return;
        }
        todo := todo - {n};
      }
      todo := pendingExits.Keys;
      while todo != {}
        invariant todo <= pendingExits.Keys && completions == old(completions)
        invariant forall n | n in pendingExits && n !in todo :: !PendingMatch(old(View()), job, n)
        decreases todo
      {
        var n :| n in todo;
        if Matches(job, n, pendingExits[n]) {
          completions := completions + {n};
          hit := Some(n);
          return;
        }
        todo := todo - {n};
      }
    }

    /** The exit watcher's critical section, after Wait returned. */
    method NoteExit(name: Name, code: int, waitErr: bool)
      requires Valid() && name in states
      modifies this`pendingExits
      ensures Valid()
      ensures View() == if !waitErr && code == 0 then NoteCleanExit(old(View()), name) else old(View())
      ensures pendingExits == if !waitErr && code == 0 && !states[name].completionAccounted && desired > 0
                              then old(pendingExits)[name := states[name].runnerID] else old(pendingExits)
    {
      if !waitErr && code == 0 {
        if !states[name].completionAccounted && desired > 0 {
          pendingExits := pendingExits[name := states[name].runnerID];
        }
      }
    }

    /** First stages of a started cleanup: the instance dies, its slot frees, the stop is reported once. */
    static method StopInstance(begun: RunnerState, terminate: bool, w: CleanupWorld)
      returns (st: RunnerState, calls: seq<CleanupCall>, failed: bool)
      ensures failed <==> !begun.terminated && terminate && !w.killed
      ensures failed || begun.terminated ==> st == begun
      ensures !failed && !begun.terminated ==> st == ConfirmTermination(begun)
      ensures calls == CallList(!begun.terminated && terminate, !begun.terminated && !failed && !begun.stopReported,
                                false, false)
    {
      st, calls, failed := begun, [], false;
      if !st.terminated {
        if terminate {
          calls := calls + [Kill];
          if !w.killed { return st, calls, true; }
        }
        var reportStop := !st.stopReported;
        st := ConfirmTermination(st);
        if reportStop { calls := calls + [OnStop]; }
      }
    }

    /** All stages of a started cleanup on the state of one runner. */
    static method RunStages(begun: RunnerState, terminate: bool, w: CleanupWorld)
      returns (st: RunnerState, calls: seq<CleanupCall>, failed: bool)
      requires Orderly(begun) && !begun.cleaned
      ensures Cleaned(st, calls, failed) == Advance(begun, terminate, w)
    {
      st, calls, failed := StopInstance(begun, terminate, w);
      if failed { return; }
      if MustDeregister(st) {
        calls := calls + [Deregister];
        if !w.deregistered { return st, calls, true; }
        st := st.(registrationRemoved := true);
      }
      calls := calls + [RemoveRecord];
      if !w.recordRemoved { return st, calls, true; }
      st := st.(cleaned := true);
      return st, calls, st.waitErr;
    }

    /** One uninterrupted `finishRunner`. */
    method FinishRunner(name: Name, code: int, waitErr: bool, terminate: bool, w: CleanupWorld)
      returns (failed: bool, calls: seq<CleanupCall>)
      requires Valid() && name in states
      modifies this`states, this`running
      ensures Valid() && states.Keys == old(states).Keys
      ensures Cleaned(states[name], calls, failed) == Cleanup(old(states)[name], code, waitErr, terminate, w)
      ensures states == old(states)[name := states[name]] && (!failed ==> states[name].cleaned)
      ensures states[name].occupiesCapacity ==> old(states)[name].occupiesCapacity
      ensures old(states)[name].cleaned ==> states == old(states) && calls == [] && !failed
      ensures !old(states)[name].cleaned ==>
                Decided(old(states)[name], code, waitErr, terminate, w, states[name], calls, failed)
      ensures running == if states[name].cleaned && !old(states)[name].cleaned then old(running) - {name}
                         else old(running)
    {
      if states[name].cleaned { return false, []; }
      CleanupKeepsOrder(states[name], code, waitErr, terminate, w);
      CleanupDecides(states[name], code, waitErr, terminate, w);
      ghost var was, goal := states, Cleanup(states[name], code, waitErr, terminate, w);
      var st := StartCleanup(states[name], code, waitErr, terminate);
      states := states[name := st];
      st, calls, failed := RunStages(st, terminate, w);
      assert Cleaned(st, calls, failed) == goal;
      states := states[name := st];
      assert states == was[name := st];
      if st.cleaned { running := running - {name}; }
    }

    /** Remove every remembered registration that GitHub lets go of. */
    method RetryPendingRegistrations(world: RunnerId -> bool) returns (failed: bool)
      requires Valid()
      modifies this`pendingRegistrations
      ensures Valid()
      ensures pendingRegistrations ==
              map id | id in old(pendingRegistrations) && !world(id) :: old(pendingRegistrations)[id]
      ensures failed <==> pendingRegistrations != map[]
    {
      failed := false;
      var todo := pendingRegistrations.Keys;
      ghost var was := pendingRegistrations;
      while todo != {}
        invariant todo <= was.Keys
        invariant pendingRegistrations == map id | id in was && (id in todo || !world(id)) :: was[id]
        invariant failed <==> exists id :: id in was && id !in todo && !world(id)
        decreases todo
      {
        EmptyIfNone(todo);
        var id: RunnerId :| id in todo;
        if !world(id) { failed := true; } else { pendingRegistrations := pendingRegistrations - {id}; }
        todo := todo - {id};
      }
      assert forall id: RunnerId :: id in pendingRegistrations <==> id in was && !world(id);
      if !failed {
        EmptyIfNone(pendingRegistrations.Keys);
      }
    }

    /** One more cleanup of a round. */
    method FinishNext(ghost r: Round, ghost todo: set<Name>, name: Name, code: int, waitErr: bool, w: CleanupWorld)
      returns (failed: bool)
      requires Valid() && InRound(r, todo, states, running) && name in todo && name in r.goal
      requires r.goal[name] == Cleanup(r.was[name], code, waitErr, true, w)
      modifies this`states, this`running
      ensures Valid() && InRound(r, todo - {name}, states, running)
      ensures AnyFailed(r.goal, todo - {name}) <==> AnyFailed(r.goal, todo) || failed
    {
      AttemptNext(r.was, r.goal, todo, states, name);
      ghost var states0, running0 := states, running;
      var calls;
      failed, calls := FinishRunner(name, code, waitErr, true, w);
      RoundGoesOn(r, todo, states0, running0, name, states, running);
    }

    /** Retry, one by one, the cleanups that have begun; the session's end cuts the loop short. */
    method RetryPendingCleanup(world: Name -> CleanupWorld, ends: nat)
      returns (failed: bool, complete: bool, ghost left: set<Name>)
      requires Valid()
      modifies this`states, this`running
      ensures Valid() && InRound(Round(old(states), old(running), Retries(old(View()), world)), left, states, running)
      ensures failed <==> AnyFailed(Retries(old(View()), world), left)
      ensures left <= Retries(old(View()), world).Keys && (complete <==> left == {})
      ensures ends >= |old(running)| ==> complete
      ensures Retried(old(states), old(running), left, world, states, running)
      ensures failed <==> Unfinished((set n | n in old(running) && n !in left && old(states)[n].cleanupStarted),
                                     states, running)
    {
      failed, complete := false, true;
      ghost var was := View();
      ghost var r := Round(states, running, Retries(was, world));
      var todo := set n | n in running && n in states && states[n].cleanupStarted;
      assert todo == r.goal.Keys;
      RoundBegins(r);
      SubsetSize(todo, running);
      assert Counted(running, todo, 0, ends, true);
      var tries := 0;
      while todo != {} && complete
        invariant todo <= r.goal.Keys && Valid() && InRound(r, todo, states, running)
        invariant failed <==> AnyFailed(r.goal, todo)
        invariant Counted(was.running, todo, tries, ends, complete)
        decreases todo
      {
        var name :| name in todo;
        AttemptNext(r.was, r.goal, todo, states, name);
        var err := FinishNext(r, todo, name, states[name].exitCode, states[name].waitErr, world(name));
        failed := failed || err;
        CountOneMore(was.running, todo, tries, ends, name);
        tries := tries + 1;
        complete := tries < ends || todo == {name};
        todo := todo - {name};
      }
      left := todo;
      RetriesMade(was, world, left, states, running);
      CountedOut(was.running, left, tries, ends, complete);
    }

    /** The statistics callback up to its launches; a permanent session error after a retry ends it. */
    method Converge(count: int, github: RunnerId -> bool, cleanups: Name -> CleanupWorld, ends: nat, permanent: bool)
      returns (proceed: bool, ghost left: set<Name>)
      requires Valid() && !stopped
      modifies this
      ensures Valid() && !stopped && desired == count && completions == {}
      ensures |Occupying(View())| <= |Occupying(old(View()))|
      ensures !permanent ==> proceed
      ensures pendingExits == if count == 0 then map[] else old(pendingExits) - old(completions)
      ensures pendingRegistrations ==
              map id | id in old(pendingRegistrations) && !github(id) :: old(pendingRegistrations)[id]
      ensures Retried(old(states), old(running), left, cleanups, states, running)
      ensures proceed && ends >= |old(running)| ==> left == {}
    {
      var _ := BeginStatistics(count);
      ghost var l0 := View();
      StatisticsShrink(old(View()), count);
      var failed := RetryPendingRegistrations(github);
      ghost var l1 := View();
      assert Occupying(l1) == Occupying(l0);
      if failed && permanent { return false, running; }
      var complete;
      failed, complete, left := RetryPendingCleanup(cleanups, ends);
      RoundShrinks(Round(l0.states, l0.running, Retries(l1, cleanups)), left, l1, View());
      RetriedSince(old(View()), count, left, cleanups, states, running);
      return !(failed && permanent), left;
    }

    /**
     * A whole statistics callback without interference: unless it is refused or ends in a permanent
     * error, it retries what is pending and then launches from there, `l`, what is allowed.
     */
    method HandleDesiredRunnerCount(count: int, github: RunnerId -> bool, cleanups: Name -> CleanupWorld, ends: nat,
                                    launches: nat -> LaunchWorld, permanent: bool)
      returns (serving: nat, ghost l: LauncherState, ghost left: set<Name>)
      requires Valid()
      modifies this
      ensures Valid() && serving == |Occupying(View())|
      ensures old(stopped) ==> View() == old(View())
      ensures !old(stopped) ==> desired == count
      ensures maxRunners > 0 && |Occupying(old(View()))| <= maxRunners ==> serving <= maxRunners
      ensures serving > |Occupying(old(View()))| ==> serving + |pendingExits| <= count
      ensures !old(stopped) && !permanent ==>
        && View() == LaunchLoop(l, Allowed(l, count), launches, 0) && l.completions == {}
        && l.pendingExits == (if count == 0 then map[] else old(pendingExits) - old(completions))
        && l.pendingRegistrations ==
             (map id | id in old(pendingRegistrations) && !github(id) :: old(pendingRegistrations)[id])
        && Retried(old(states), old(running), left, cleanups, l.states, l.running)
        && (ends >= |old(running)| ==> left == {})
    {
      l, left := View(), {};
      if stopped {
        serving := RunningLocked();
        return;
      }
      var proceed;
      proceed, left := Converge(count, github, cleanups, ends, permanent);
      l := View();
      if proceed {
        ServingStaysWithin(l, count, launches);
        LoopOccupies(l, Allowed(l, count), launches, 0);
        serving := ServeDemand(count, launches);
      } else {
        serving := RunningLocked();
      }
    }

    /** Shutdown without interference: what fails stays listed, and success leaves nothing behind. */
    method Shutdown(world: Name -> CleanupWorld, github: RunnerId -> bool) returns (failed: bool)
      requires Valid()
      modifies this
      ensures Valid() && stopped
      ensures InRound(Round(old(states), old(running), ShutDowns(old(View()), world)), {}, states, running)
      ensures pendingRegistrations ==
              map id | id in old(pendingRegistrations) && !github(id) :: old(pendingRegistrations)[id]
      ensures failed <==> AnyFailed(ShutDowns(old(View()), world), {}) || pendingRegistrations != map[]
      ensures forall n | n in old(running) ::
                RoundMade(old(states)[n], states[n], n in running, -1, false, world(n))
      ensures failed <==> Unfinished(old(running), states, running) || pendingRegistrations != map[]
      ensures !failed ==> running == {} && pendingRegistrations == map[]
    {
      ghost var was := View();
      ghost var r := Round(states, running, ShutDowns(was, world));
      RoundBegins(r);
      stopped := true;
      failed := false;
      var todo := running;
      assert todo == r.goal.Keys;
      while todo != {}
        modifies this`states, this`running
        invariant Valid() && stopped && todo <= r.goal.Keys && InRound(r, todo, states, running)
        invariant failed <==> AnyFailed(r.goal, todo)
        decreases todo
      {
        var n :| n in todo;
        var err := FinishNext(r, todo, n, -1, false, world(n));
        failed := failed || err;
        todo := todo - {n};
      }
      assert !failed ==> forall n :: n !in running;
      ShutDownsMade(was, world, states, running);
      var err := RetryPendingRegistrations(github);
      failed := failed || err;
    }
  }
}
