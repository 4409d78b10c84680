/** What every step of the launcher keeps. */
module LauncherInvariants {
  import opened Common
  import opened LauncherState
  import opened LauncherProtocol

  // ---------------------------------------------------------------- identities

  /** An id this launcher was issued and that nobody holds yet. */
  ghost predicate Unheld(s: State, id: RunnerId) {
    id in s.ours && id !in s.l.pendingRegistrations && forall n | n in s.l.states :: s.l.states[n].runnerID != id
  }

  ghost predicate RunnerIds(s: State, n: Name) {
    && n in s.l.states && n in s.runners
    && s.l.states[n].runnerID in s.ours
    && s.runners[n].resource in s.known && s.known[s.runners[n].resource] == s.l.states[n].runnerID
    && (!s.runners[n].partial ==> s.l.states[n].handle == s.runners[n].resource)
  }

  ghost predicate WorldIds(s: State) {
    && s.ours <= s.issued && 0 !in s.ours
    && (forall r | r in s.known :: s.known[r] in s.issued)
    && (forall r | r in s.records :: r in s.known && s.known[r] == s.records[r])
    && (forall r, q | r in s.known && q in s.known && s.known[r] == s.known[q] && s.known[r] in s.ours :: r == q)
  }

  ghost predicate HeldIds(s: State) {
    && s.l.running <= s.l.states.Keys && s.runners.Keys == s.l.states.Keys
    && (forall n | n in s.l.states :: RunnerIds(s, n))
    && (forall n, m | n in s.l.states && m in s.l.states && s.l.states[n].runnerID == s.l.states[m].runnerID :: n == m)
    && (forall id | id in s.l.pendingRegistrations ::
          id in s.ours && forall n | n in s.l.states :: s.l.states[n].runnerID != id)
  }

  ghost predicate LaunchIds(s: State) {
    s.mu.Held? ==>
      match s.mu.stage
      case LoopHead => true
      case Begun => true
      case Issued(n, id) => n !in s.l.states && Unheld(s, id) && forall r | r in s.known :: s.known[r] != id
      case Launched(n, id, r, outcome, alive) =>
        && n !in s.l.states && Unheld(s, id) && r in s.known && s.known[r] == id
        && (outcome.Started? ==> outcome.handle == r) && (outcome.Absent? ==> !alive)
  }

  ghost predicate Ids(s: State) { WorldIds(s) && HeldIds(s) && LaunchIds(s) }

  /** A runner state only moves forward through its cleanup. */
  predicate Progress(st: RunnerState, st': RunnerState) {
    && st.runnerID == st'.runnerID && st.handle == st'.handle
    && (st'.occupiesCapacity ==> st.occupiesCapacity)
    && (st.cleanupStarted ==> st'.cleanupStarted && st'.needsDeregistration == st.needsDeregistration)
    && (st.terminated ==> st'.terminated) && (st.stopReported ==> st'.stopReported)
    && (st.registrationRemoved ==> st'.registrationRemoved) && (st.cleaned ==> st'.cleaned)
    && (st.busy ==> st'.busy) && (st.completionAccounted ==> st'.completionAccounted)
  }

  predicate SameLaunch(r: Runner, r': Runner) {
    && r.resource == r'.resource && r.partial == r'.partial && r.attempt == r'.attempt
    && (r'.alive ==> r.alive) && (r.inserted ==> r'.inserted) && (r.accounted ==> r'.accounted)
  }

  predicate MidLaunch(mu: Mu) { mu.Held? && mu.stage != LoopHead }

  /** What most actions keep; they may only forget running names, records and pending removals. */
  ghost predicate Frame(s: State, s': State) {
    && s'.issued == s.issued && s'.ours == s.ours && s'.known == s.known && s'.l.seqNo == s.l.seqNo
    && s'.l.maxRunners == s.l.maxRunners && (s.l.stopped ==> s'.l.stopped) && s.removed <= s'.removed
    && s'.l.running <= s.l.running && s'.l.states.Keys == s.l.states.Keys && s'.runners.Keys == s.runners.Keys
    && (forall n | n in s.l.states :: Progress(s.l.states[n], s'.l.states[n]))
    && (forall n | n in s.runners :: SameLaunch(s.runners[n], s'.runners[n]))
    && s'.l.pendingRegistrations.Keys <= s.l.pendingRegistrations.Keys
    && (forall r | r in s'.records :: r in s.records && s'.records[r] == s.records[r])
    && (MidLaunch(s'.mu) ==> s'.mu == s.mu)
  }

  lemma StatisticsFrame(s: State, count: int, s': State)
    requires DesiredBegin(s, count, s')
    ensures Frame(s, s')
  {}

  lemma ListenerFrame(s: State, a: ListenerAction, s': State)
    requires ListenerNext(s, a, s')
    ensures Frame(s, s')
  {
    match a {
      case ADesiredBegin(count) => StatisticsFrame(s, count, s');
      case _ =>
    }
  }

  lemma RetryFrame(s: State, a: RetryAction, s': State)
    requires RetryNext(s, a, s')
    ensures Frame(s, s')
  {}

  /** One runner changes and stays of the same launch. */
  lemma PutFrame(s: State, n: Name, s': State)
    requires Known(s, n) && n in s'.runners && s' == Put(s, n, s'.runners[n]) && SameLaunch(s.runners[n], s'.runners[n])
    ensures Frame(s, s')
  {}

  lemma ExitFrame(s: State, a: ExitAction, s': State)
    requires ExitNext(s, a, s')
    ensures Frame(s, s')
  {
    match a {
      case ARecordCleanExit(_) =>
      case ARefill(_) =>
      case _ => PutFrame(s, a.n, s');
    }
  }

  lemma ShutdownFrame(s: State, a: ShutdownAction, s': State)
    requires ShutdownNext(s, a, s')
    ensures Frame(s, s')
  {}

  lemma ReconcileFrame(s: State, a: ReconcileAction, s': State)
    requires ReconcileNext(s, a, s')
    ensures Frame(s, s')
  {}

  /** A cleanup touches one runner and the world behind it. */
  ghost predicate FinishFrame(s: State, n: Name, s': State) {
    && s'.mu == s.mu && s'.listener == s.listener && s'.shutdowns == s.shutdowns && s'.reconciles == s.reconciles
    && s'.issued == s.issued && s'.ours == s.ours && s'.known == s.known && s.removed <= s'.removed
    && Known(s, n) && Known(s', n)
    && s'.l == s.l.(states := s.l.states[n := s'.l.states[n]], running := s'.l.running)
    && (s'.l.running == s.l.running || s'.l.running == s.l.running - {n})
    && s'.runners == s.runners[n := s'.runners[n]] && s'.runners[n].calls.Keys == s.runners[n].calls.Keys
    && Progress(s.l.states[n], s'.l.states[n]) && SameLaunch(s.runners[n], s'.runners[n])
    && s'.runners[n].watch == s.runners[n].watch
    && (s'.stops == s.stops || s'.stops == CountStop(s.stops, s.runners[n].attempt))
    && (forall r | r in s'.records :: r in s.records && s'.records[r] == s.records[r])
  }

  lemma KillFrame(s: State, n: Name, c: Caller, s': State)
    requires FinishKill(s, n, c, s') || exists dead :: FinishKillError(s, n, c, dead, s')
    ensures FinishFrame(s, n, s')
  {}

  lemma BeginFrame(s: State, n: Name, c: Caller, s': State)
    requires FinishBegin(s, n, c, s')
    ensures FinishFrame(s, n, s')
  {}

  lemma ConfirmFrame(s: State, n: Name, c: Caller, s': State)
    requires FinishConfirm(s, n, c, s')
    ensures FinishFrame(s, n, s')
  {}

  lemma TerminateFrame(s: State, a: TerminateAction, s': State)
    requires TerminateNext(s, a, s')
    ensures FinishFrame(s, a.n, s')
  {
    match a {
      case AFinishBegin(n, c) => BeginFrame(s, n, c, s');
      case AFinishKill(n, c) => KillFrame(s, n, c, s');
      case AFinishKillError(n, c, dead) => KillFrame(s, n, c, s');
      case AFinishConfirm(n, c) => ConfirmFrame(s, n, c, s');
      case _ =>
    }
  }

  lemma DeregisterFrame(s: State, n: Name, c: Caller, s': State)
    requires FinishDeregister(s, n, c, s')
    ensures FinishFrame(s, n, s')
  {}

  lemma RemoveFrame(s: State, n: Name, c: Caller, s': State)
    requires FinishRemove(s, n, c, s')
    ensures FinishFrame(s, n, s')
  {}

  lemma DeleteFrame(s: State, n: Name, c: Caller, s': State)
    requires FinishDelete(s, n, c, s')
    ensures FinishFrame(s, n, s')
  {}

  lemma ReleaseFrame(s: State, a: ReleaseAction, s': State)
    requires ReleaseNext(s, a, s')
    ensures FinishFrame(s, a.n, s')
  {
    match a {
      case AFinishDeregister(n, c) => DeregisterFrame(s, n, c, s');
      case AFinishRemove(n, c) => RemoveFrame(s, n, c, s');
      case AFinishDelete(n, c) => DeleteFrame(s, n, c, s');
      case _ =>
    }
  }

  lemma FinishIsFrame(s: State, n: Name, s': State)
    requires FinishFrame(s, n, s')
    ensures Frame(s, s')
  {}

  lemma UnlockFrame(s: State, s': State)
    requires LaunchUnlock(s, s')
    ensures Frame(s, s')
  {}

  lemma FailFrame(s: State, s': State)
    requires LaunchFail(s, s')
    ensures Frame(s, s')
  {}

  lemma UnregisterFrame(s: State, s': State)
    requires LaunchUnregister(s, s')
    ensures Frame(s, s')
  {}

  lemma LaunchFailFrame(s: State, s': State)
    requires LaunchFail(s, s') || LaunchUnregister(s, s') || LaunchUnlock(s, s')
    ensures Frame(s, s')
  {
    if LaunchFail(s, s') {
      FailFrame(s, s');
    } else if LaunchUnregister(s, s') {
      UnregisterFrame(s, s');
    } else {
      UnlockFrame(s, s');
    }
  }

  /** A recorded launch, clean or partial: one more runner, and the others stay of the same launch. */
  ghost predicate Adds(s: State, s': State) {
    && s.mu.Held? && s.mu.stage.Launched? && !MidLaunch(s'.mu)
    && s'.issued == s.issued && s'.ours == s.ours && s'.known == s.known && s'.records == s.records
    && var g := s.mu.stage;
    && g.name !in s.l.states && g.name !in s.runners && g.name in s'.l.states && g.name in s'.runners
    && s'.l == AddRunner(s.l, g.name, s'.l.states[g.name]) && s'.runners.Keys == s.runners.Keys + {g.name}
    && AddedRunner(s, s'.l.states[g.name], s'.runners[g.name])
    && forall n | n in s.runners :: SameLaunch(s.runners[n], s'.runners[n])
  }

  predicate AddedRunner(s: State, st: RunnerState, r: Runner)
    requires s.mu.Held? && s.mu.stage.Launched?
  {
    && st.runnerID == s.mu.stage.id && st.occupiesCapacity
    && (!r.partial ==> s.mu.stage.outcome.Started? && st.handle == s.mu.stage.outcome.handle)
    && r.resource == s.mu.stage.resource && r.attempt == s.l.seqNo
  }

  // ---------------------------------------------------------------- identities are kept

  lemma IdsFramed(s: State, s': State)
    requires Ids(s) && Frame(s, s')
    ensures Ids(s')
  {}

  lemma IdsBegin(s: State, s': State)
    requires Ids(s) && LaunchBegin(s, s')
    ensures Ids(s')
  {}

  lemma IdsIssued(s: State, n: Name, id: RunnerId, s': State)
    requires Ids(s) && JitIssued(s, n, id, s')
    ensures Ids(s')
  {}

  lemma IdsBackend(s: State, r: ResourceId, outcome: Outcome, recorded: bool, alive: bool, s': State)
    requires Ids(s) && BackendLaunch(s, r, outcome, recorded, alive, s')
    ensures Ids(s')
  {}

  lemma RecordAdds(s: State, s': State)
    requires Ids(s) && LaunchRecord(s, s')
    ensures Adds(s, s')
  {}

  lemma PartialAdds(s: State, s': State)
    requires Ids(s) && LaunchRecordPartial(s, s')
    ensures Adds(s, s')
  {}

  lemma AddedIds(s: State, s': State)
    requires HeldIds(s) && Adds(s, s')
    requires var g := s.mu.stage; g.id in s.ours && g.resource in s.known && s.known[g.resource] == g.id
    requires var g := s.mu.stage; g.outcome.Started? ==> g.outcome.handle == g.resource
    ensures forall n | n in s'.l.states :: RunnerIds(s', n)
  {
    forall n | n in s'.l.states ensures RunnerIds(s', n) {
      if n != s.mu.stage.name { assert RunnerIds(s, n); }
    }
  }

  lemma AddedUnique(s: State, s': State)
    requires HeldIds(s) && Adds(s, s') && Unheld(s, s.mu.stage.id)
    ensures forall n, m | n in s'.l.states && m in s'.l.states &&
                          s'.l.states[n].runnerID == s'.l.states[m].runnerID :: n == m
    ensures forall id, n | id in s'.l.pendingRegistrations && n in s'.l.states :: s'.l.states[n].runnerID != id
  {}

  lemma IdsAdded(s: State, s': State)
    requires Ids(s) && Adds(s, s')
    ensures Ids(s')
  {
    AddedIds(s, s');
    AddedUnique(s, s');
  }

  lemma IdsUnregisterError(s: State, gone: bool, s': State)
    requires Ids(s) && LaunchUnregisterError(s, gone, s')
    ensures Ids(s')
  {}

  // ---------------------------------------------------------------- launch attempts

  ghost predicate Attempts(s: State) {
    && (forall n | n in s.runners :: 1 <= s.runners[n].attempt <= s.l.seqNo)
    && (forall n, m | n in s.runners && m in s.runners && s.runners[n].attempt == s.runners[m].attempt :: n == m)
    && (MidLaunch(s.mu) ==> 1 <= s.l.seqNo && forall n | n in s.runners :: s.runners[n].attempt != s.l.seqNo)
  }

  lemma AttemptsFramed(s: State, s': State)
    requires Attempts(s) && Frame(s, s')
    ensures Attempts(s')
  {}

  lemma AttemptsLaunch(s: State, a: LaunchAction, s': State)
    requires Attempts(s) && LaunchNext(s, a, s')
    ensures Attempts(s')
  {}

  lemma AttemptsAdded(s: State, s': State)
    requires Attempts(s) && Adds(s, s')
    ensures Attempts(s')
  {}

  lemma AttemptsUnregisterError(s: State, gone: bool, s': State)
    requires Attempts(s) && LaunchUnregisterError(s, gone, s')
    ensures Attempts(s')
  {}

  // ---------------------------------------------------------------- one runner

  /** All that concerns one runner: its states, and what the shared fields say about its name. */
  datatype View = View(
    st: RunnerState, r: Runner,
    listed: bool,       // in `running`
    deregistered: bool, // removed on GitHub
    stopCalls: nat,     // OnStop calls for its launch
    noted: bool,        // in `completions`
    pending: bool,      // in `pendingExits`
    stopped: bool)

  function ViewOf(s: State, n: Name): View
    requires Known(s, n)
  {
    View(s.l.states[n], s.runners[n], n in s.l.running, s.l.states[n].runnerID in s.removed,
         if s.runners[n].attempt in s.stops then s.stops[s.runners[n].attempt] else 0,
         n in s.l.completions, n in s.l.pendingExits, s.l.stopped)
  }

  /** How far the cleanup has come, and what that implies about the world. */
  predicate Staged(v: View) {
    && (v.r.watch.Unwatched? <==> v.r.partial)
    && (!v.listed ==> v.st.cleaned)
    && (v.st.cleaned ==> v.st.terminated && (v.st.needsDeregistration ==> v.st.registrationRemoved))
    && (v.st.registrationRemoved ==> v.st.terminated && v.deregistered)
    && (v.st.terminated ==> v.st.cleanupStarted && !v.st.occupiesCapacity && v.st.stopReported && !v.r.alive)
    && (!v.st.terminated ==> v.st.occupiesCapacity && v.st.stopReported == v.r.partial)
    && (v.st.cleanupStarted && !v.st.needsDeregistration ==> v.st.busy && EndedItself(v.r.watch))
    && (EndedItself(v.r.watch) ==> !v.r.alive)
    && (v.r.watch.Refilling? ==> v.r.watch.code == 0 && !v.r.watch.err)
    && v.st.runnerID != 0
  }

  predicate ReportInProgress(r: Runner) {
    r.holder.Some? && r.holder.value in r.calls && r.calls[r.holder.value].pc.Reporting?
  }

  /** OnStop has been called for the launch error, or once termination was confirmed and reported. */
  predicate StopsCounted(v: View) {
    v.stopCalls == if v.r.partial || (v.st.stopReported && !ReportInProgress(v.r)) then 1 else 0
  }

  /** No exit that the broker accounted for is, or will be, subtracted from demand again. */
  predicate ExitsCounted(v: View) {
    && (v.pending ==> v.r.inserted)
    && (v.r.inserted ==> PastRecord(v.r.watch))
    && (v.r.accounted ==> !v.pending)
    && (v.r.accounted ==> v.st.completionAccounted || v.r.partial || PastRecord(v.r.watch))
    && (!v.stopped && v.st.cleanupStarted ==> v.r.partial || PastRecord(v.r.watch))
    && (!v.stopped && v.noted ==> v.listed || v.r.partial || PastRecord(v.r.watch))
  }

  predicate CallStaged(v: View, c: Caller)
    requires c in v.r.calls
  {
    var f := v.r.calls[c];
    && (HoldsCleanup(f.pc) <==> v.r.holder == Some(c))
    && (c == Watcher ==> v.r.watch == WatchPc.Finishing(f.code, f.terminate) && f.waitErr == f.terminate)
    && (c != Watcher ==> f.terminate)
    && (c == Listener ==> v.st.cleanupStarted)
    && (c == PartialLaunch ==> v.r.partial)
    && (c.Shutdown? ==> v.stopped)
    && (f.pc == Returned(true) ==> !v.listed)
    && (HoldsCleanup(f.pc) ==> v.listed && (v.st.cleaned <==> f.pc.Deleting?))
    && (f.pc.Killing? ==> v.st.cleanupStarted && !v.st.terminated && f.terminate)
    && (f.pc.Confirming? ==> v.st.cleanupStarted && !v.st.terminated && !v.r.alive)
    && (f.pc.Reporting? || f.pc.Deregistering? || f.pc.Removing? ==> v.st.terminated)
    && (f.pc.Reporting? ==> !v.r.partial)
    && (f.pc.Removing? && v.st.needsDeregistration ==> v.st.registrationRemoved)
  }

  predicate Sound(v: View) {
    && Staged(v) && StopsCounted(v) && ExitsCounted(v)
    && (v.listed && v.st.cleaned ==> v.r.holder.Some?)
    && (v.r.holder.Some? ==> v.r.holder.value in v.r.calls)
    && (forall c | c in v.r.calls :: CallStaged(v, c))
  }

  /** What other goroutines may do to a runner they are not cleaning. */
  predicate Disturbed(v: View, v': View) {
    && v'.r == v.r.(alive := v'.r.alive) && (v'.r.alive ==> v.r.alive)
    && v'.st == v.st.(busy := v'.st.busy) && (v.st.busy ==> v'.st.busy)
    && v'.listed == v.listed && (v.deregistered ==> v'.deregistered) && v'.stopCalls == v.stopCalls
    && (v'.noted ==> v.noted || v.listed || v.pending) && (v'.pending ==> v.pending)
    && (v.stopped ==> v'.stopped)
  }

  lemma SoundDisturbed(v: View, v': View)
    requires Sound(v) && Disturbed(v, v')
    ensures Sound(v')
  {
    forall c | c in v'.r.calls ensures CallStaged(v', c) { assert CallStaged(v, c); }
  }

  // ---------------------------------------------------------------- all runners

  ghost predicate Runners(s: State) {
    && s.runners.Keys == s.l.states.Keys && s.l.running <= s.l.states.Keys
    && s.l.completions <= s.l.states.Keys && s.l.pendingExits.Keys <= s.l.states.Keys
    && (forall n | Known(s, n) :: Sound(ViewOf(s, n)))
  }

  predicate CallerWaits(s: State, n: Name, c: Caller) {
    && (c == Listener ==> s.listener.CleanOne? && s.listener.name == n)
    && (c.Shutdown? ==> c.k in s.shutdowns)
  }

  /** Calls belong to goroutines that are waiting for them. */
  ghost predicate Callers(s: State) {
    && (forall n, c | n in s.runners && c in s.runners[n].calls :: CallerWaits(s, n, c))
    && (s.listener.Clean? || s.listener.CleanOne? ==>
          forall n | n in s.listener.names :: n in s.l.states && s.l.states[n].cleanupStarted)
    && (!s.listener.Idle? ==> s.listener.count == s.l.desired)
    && (s.mu.Held? && s.mu.lockedBy.ForDemand? ==> s.listener == Launching(s.mu.lockedBy.count))
  }
}
