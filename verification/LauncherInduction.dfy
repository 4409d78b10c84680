/** The launcher invariant is inductive, so it holds in every state of every run. */
module LauncherInduction {
  import opened Common
  import opened LauncherState
  import opened LauncherProtocol
  import opened LauncherInvariants
  import opened LauncherRunners
  import opened LauncherShared

  ghost predicate Inv(s: State) {
    && Ids(s) && Attempts(s) && Runners(s) && Callers(s)
    && Registrations(s) && WithinCapacity(s) && Stops(s) && Stopping(s) && Reconciling(s)
  }

  lemma InitInv(s: State, maxRunners: int)
    requires Init(s, maxRunners)
    ensures Inv(s)
  {
    assert Occupying(s.l) == {};
  }

  // ---------------------------------------------------------------- every family of steps keeps the invariant

  /** What most steps do to the shared fields. */
  ghost predicate SharedFrame(s: State, s': State) {
    && (MidLaunch(s.mu) ==> s'.mu == s.mu) && (s.l.stopped ==> s'.mu == s.mu) && s'.l.stopped == s.l.stopped
    && s'.shutdowns == s.shutdowns && s'.reconciles == s.reconciles
    && (forall id | id in s.l.pendingRegistrations ::
          id in s'.l.pendingRegistrations || (s.listener.DropRegistration? && id == s.listener.id))
    && (s'.listener.DropRegistration? ==> s'.listener == s.listener || s'.listener.id in s'.removed)
    && s'.runners.Keys == s.runners.Keys
    && (forall n | n in s.runners :: s.runners[n].calls.Keys - {Listener, Watcher} <= s'.runners[n].calls.Keys)
  }

  ghost predicate StopsFrame(s: State, s': State) {
    || s'.stops == s.stops
    || exists n :: n in s.runners && s'.stops == CountStop(s.stops, s.runners[n].attempt)
  }

  ghost predicate CapacityFrame(s: State, s': State) {
    || s'.mu == Free
    || (s'.mu == s.mu && (s.mu.Held? ==> s'.l.pendingExits == s.l.pendingExits && s'.l.desired == s.l.desired))
  }

  lemma SharedFramed(s: State, s': State)
    requires Inv(s) && Frame(s, s') && SharedFrame(s, s') && StopsFrame(s, s')
    ensures Ids(s') && Attempts(s') && Registrations(s') && Stops(s') && Stopping(s') && Reconciling(s')
  {
    IdsFramed(s, s');
    AttemptsFramed(s, s');
    RegistrationsFramed(s, s');
    StopsFramed(s, s');
    StoppingFramed(s, s');
    ReconcilingFramed(s, s');
  }

  lemma ListenerShares(s: State, a: ListenerAction, s': State)
    requires ListenerNext(s, a, s')
    ensures SharedFrame(s, s') && s'.stops == s.stops && (!a.ADesiredLock? ==> CapacityFrame(s, s'))
  {}

  lemma RetryShares(s: State, a: RetryAction, s': State)
    requires RetryNext(s, a, s')
    ensures SharedFrame(s, s') && s'.stops == s.stops && CapacityFrame(s, s')
  {}

  lemma ExitShares(s: State, a: ExitAction, s': State)
    requires ExitNext(s, a, s')
    ensures SharedFrame(s, s') && s'.stops == s.stops && (!a.ARefill? ==> CapacityFrame(s, s'))
  {}

  lemma FinishShares(s: State, n: Name, s': State)
    requires FinishFrame(s, n, s')
    ensures SharedFrame(s, s') && StopsFrame(s, s') && CapacityFrame(s, s')
  {}

  lemma ListenerKeeps(s: State, a: ListenerAction, s': State)
    requires Inv(s) && ListenerNext(s, a, s')
    ensures Inv(s')
  {
    ListenerFrame(s, a, s');
    ListenerShares(s, a, s');
    SharedFramed(s, s');
    ListenerKeepsRunners(s, a, s');
    ListenerKeepsCallers(s, a, s');
    if a.ADesiredLock? { LockKeepsCapacity(s, s'.mu.lockedBy, s'); } else { CapacityFramed(s, s'); }
  }

  lemma RetryKeeps(s: State, a: RetryAction, s': State)
    requires Inv(s) && RetryNext(s, a, s')
    ensures Inv(s')
  {
    RetryFrame(s, a, s');
    RetryShares(s, a, s');
    SharedFramed(s, s');
    RetryKeepsRunners(s, a, s');
    RetryKeepsCallers(s, a, s');
    CapacityFramed(s, s');
  }

  lemma ExitKeeps(s: State, a: ExitAction, s': State)
    requires Inv(s) && ExitNext(s, a, s')
    ensures Inv(s')
  {
    ExitFrame(s, a, s');
    ExitShares(s, a, s');
    SharedFramed(s, s');
    ExitKeepsRunners(s, a, s');
    ExitCallersFrame(s, a, s');
    CallersFramed(s, s');
    if a.ARefill? { LockKeepsCapacity(s, s'.mu.lockedBy, s'); } else { CapacityFramed(s, s'); }
  }

  lemma FinishKeeps(s: State, n: Name, s': State)
    requires Inv(s) && FinishFrame(s, n, s') && Runners(s')
    ensures Inv(s')
  {
    FinishIsFrame(s, n, s');
    FinishShares(s, n, s');
    SharedFramed(s, s');
    FinishCallersFrame(s, n, s');
    CallersFramed(s, s');
    CapacityFramed(s, s');
  }

  lemma ShutdownShares(s: State, a: ShutdownAction, s': State)
    requires Registrations(s) && Stopping(s) && ShutdownNext(s, a, s')
    ensures s'.mu == s.mu && s'.listener == s.listener && s'.stops == s.stops && s'.reconciles == s.reconciles
    ensures s'.l.pendingExits == s.l.pendingExits && s'.l.desired == s.l.desired
    ensures forall id | id in s.l.pendingRegistrations :: id in s'.l.pendingRegistrations || id in s'.removed
    ensures forall k | k in s'.shutdowns && s'.shutdowns[k].DropOne? :: s'.shutdowns[k].id in s'.removed
  {}

  lemma ShutdownKeeps(s: State, a: ShutdownAction, s': State)
    requires Inv(s) && ShutdownNext(s, a, s')
    ensures Inv(s')
  {
    ShutdownFrame(s, a, s');
    IdsFramed(s, s');
    AttemptsFramed(s, s');
    ShutdownKeepsRunners(s, a, s');
    ShutdownKeepsCallers(s, a, s');
    ShutdownShares(s, a, s');
    RegistrationsFramed(s, s');
    CapacityFramed(s, s');
    StopsFramed(s, s');
    ShutdownKeepsStopping(s, a, s');
    ReconcilingFramed(s, s');
  }

  lemma ReconcileKeeps(s: State, a: ReconcileAction, s': State)
    requires Inv(s) && ReconcileNext(s, a, s')
    ensures Inv(s')
  {
    ReconcileFrame(s, a, s');
    IdsFramed(s, s');
    AttemptsFramed(s, s');
    ReconcileKeepsRunners(s, a, s');
    ReconcileCallersFrame(s, a, s');
    CallersFramed(s, s');
    RegistrationsFramed(s, s');
    CapacityFramed(s, s');
    StopsFramed(s, s');
    StoppingFramed(s, s');
    ReconcileKeepsReconciling(s, a, s');
  }

  lemma LaunchKeepsIds(s: State, a: LaunchAction, s': State)
    requires Ids(s) && LaunchNext(s, a, s')
    ensures Ids(s')
  {
    match a {
      case ALaunchBegin => IdsBegin(s, s');
      case AJitIssued(n, id) => IdsIssued(s, n, id, s');
      case ABackendLaunch(r, outcome, recorded, alive) => IdsBackend(s, r, outcome, recorded, alive, s');
      case ALaunchRecord => RecordAdds(s, s'); IdsAdded(s, s');
    }
  }

  lemma LaunchKeeps(s: State, a: LaunchAction, s': State)
    requires Inv(s) && LaunchNext(s, a, s')
    ensures Inv(s')
  {
    LaunchKeepsIds(s, a, s');
    AttemptsLaunch(s, a, s');
    LaunchKeepsRunners(s, a, s');
    LaunchKeepsCallers(s, a, s');
    LaunchKeepsRegistrations(s, a, s');
    LaunchKeepsCapacity(s, a, s');
    LaunchKeepsStops(s, a, s');
    LaunchKeepsReconciling(s, a, s');
  }

  lemma LaunchEndKeepsIdentity(s: State, a: LaunchEndAction, s': State)
    requires Inv(s) && LaunchEndNext(s, a, s')
    ensures Ids(s') && Attempts(s') && Callers(s') && Reconciling(s')
  {
    match a {
      case ALaunchRecordPartial =>
        PartialAdds(s, s');
        IdsAdded(s, s');
        AttemptsAdded(s, s');
        PartialKeepsCallers(s, s');
        forall o | Detached(s, o) ensures Detached(s', o) { PartialKeepsDetached(s, s', o); }
      case ALaunchUnregisterError(gone) =>
        IdsUnregisterError(s, gone, s');
        AttemptsUnregisterError(s, gone, s');
        LaunchEndCallersFrame(s, a, s');
        CallersFramed(s, s');
        forall o | Detached(s, o) ensures Detached(s', o) { UnregisterKeepsDetached(s, gone, s', o); }
      case _ =>
        LaunchFailFrame(s, s');
        IdsFramed(s, s');
        AttemptsFramed(s, s');
        LaunchEndCallersFrame(s, a, s');
        CallersFramed(s, s');
        ReconcilingFramed(s, s');
    }
  }

  lemma LaunchEndKeeps(s: State, a: LaunchEndAction, s': State)
    requires Inv(s) && LaunchEndNext(s, a, s')
    ensures Inv(s')
  {
    LaunchEndKeepsIdentity(s, a, s');
    LaunchEndKeepsRunners(s, a, s');
    LaunchEndKeepsRegistrations(s, a, s');
    LaunchEndKeepsCapacity(s, a, s');
    if a.ALaunchUnlock? { UnlockKeepsStops(s, s'); } else { LaunchEndKeepsStops(s, a, s'); }
    assert Stopping(s');
  }

  /** The invariant is inductive: every step of every goroutine keeps it. */
  lemma NextKeeps(s: State, a: Action, s': State)
    requires Inv(s) && Next(s, a, s')
    ensures Inv(s')
  {
    match a {
      case OfListener(b) => ListenerKeeps(s, b, s');
      case OfRetry(b) => RetryKeeps(s, b, s');
      case OfLaunch(b) => LaunchKeeps(s, b, s');
      case OfLaunchEnd(b) => LaunchEndKeeps(s, b, s');
      case OfExit(b) => ExitKeeps(s, b, s');
      case OfTerminate(b) => TerminateFrame(s, b, s'); TerminateKeepsRunners(s, b, s'); FinishKeeps(s, b.n, s');
      case OfRelease(b) => ReleaseFrame(s, b, s'); ReleaseKeepsRunners(s, b, s'); FinishKeeps(s, b.n, s');
      case OfShutdown(b) => ShutdownKeeps(s, b, s');
      case OfReconcile(b) => ReconcileKeeps(s, b, s');
    }
  }

  lemma {:induction false} InvAt(run: Run, maxRunners: int, i: nat)
    requires ValidRun(run, maxRunners) && i < |run.states|
    ensures Inv(run.states[i])
  {
    if i == 0 {
      InitInv(run.states[0], maxRunners);
    } else {
      InvAt(run, maxRunners, i - 1);
      NextKeeps(run.states[i - 1], run.actions[i - 1], run.states[i]);
    }
  }
}
