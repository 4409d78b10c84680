/** Invariants over the fields that all goroutines share. */
module LauncherShared {
  import opened Common
  import opened LauncherState
  import opened LauncherProtocol
  import opened LauncherInvariants
  import opened LauncherRunners

  // ---------------------------------------------------------------- registrations

  predicate InLaunch(mu: Mu, id: RunnerId) {
    mu.Held? && (mu.stage.Issued? || mu.stage.Launched?) && mu.stage.id == id
  }

  /** Somebody still answers for a registration, or it is gone. */
  ghost predicate AnsweredFor(s: State, id: RunnerId) {
    || (exists n :: n in s.l.states && s.l.states[n].runnerID == id)
    || id in s.l.pendingRegistrations
    || id in s.removed
    || InLaunch(s.mu, id)
  }

  ghost predicate Registrations(s: State) {
    && (forall id | id in s.ours :: AnsweredFor(s, id))
    && (s.listener.DropRegistration? ==> s.listener.id in s.removed)
    && (forall k | k in s.shutdowns && s.shutdowns[k].DropOne? :: s.shutdowns[k].id in s.removed)
  }

  // ---------------------------------------------------------------- demand and capacity

  predicate WithinCapacity(s: State) {
    && (s.l.maxRunners > 0 ==> |Occupying(s.l)| <= s.l.maxRunners)
    && (s.mu.Held? ==>
          && (s.l.maxRunners > 0 ==> |Occupying(s.l)| + s.mu.left <= s.l.maxRunners)
          && (s.mu.left > 0 ==> |Occupying(s.l)| + |s.l.pendingExits| + s.mu.left <= s.l.desired)
          && (s.mu.stage != LoopHead ==> s.mu.left > 0))
  }

  // ---------------------------------------------------------------- stop reports of failed launches

  ghost predicate Stops(s: State) {
    && (forall a :: a in s.stops <==> 1 <= a <= s.l.seqNo)
    && StopsOfLaunch(s)
    && (forall a | a in s.stops :: StopCounted(s, a))
  }

  /** A launch attempt has been reported stopped, or it is in progress, or a runner came of it. */
  ghost predicate StopCounted(s: State, a: nat)
    requires a in s.stops
  {
    s.stops[a] == 1 || (MidLaunch(s.mu) && a == s.l.seqNo) || exists n :: n in s.runners && s.runners[n].attempt == a
  }

  // ---------------------------------------------------------------- shutdowns

  predicate ShutdownStaged(s: State, k: nat)
    requires k in s.shutdowns
  {
    match s.shutdowns[k]
    case Joining(names) =>
      s.l.running <= names && forall n | n in names :: n in s.runners && Shutdown(k) in s.runners[n].calls
    case CopyAll(failed) => failed || s.l.running == {}
    case RemoveAll(failed, todo) => failed || (s.l.running == {} && s.l.pendingRegistrations.Keys <= todo)
    case DropOne(failed, todo, id) => failed || (s.l.running == {} && s.l.pendingRegistrations.Keys <= todo + {id})
    case ShutdownReturned(ok) => ok ==> s.l.running == {} && s.l.pendingRegistrations.Keys == {}
  }

  ghost predicate Stopping(s: State) {
    && (s.l.stopped ==> s.mu == Free)
    && (forall k | k in s.shutdowns :: s.l.stopped && ShutdownStaged(s, k))
  }

  // ---------------------------------------------------------------- reconciliations

  /** A listed record that no runner launched without error stands behind, now or later. */
  ghost predicate Detached(s: State, o: Owned) {
    && o.resource in s.known && s.known[o.resource] == o.id
    && (forall n | n in s.l.running && n in s.l.states && n in s.runners &&
                   s.l.states[n].handle == s.runners[n].resource ::
          s.runners[n].resource != o.resource && s.l.states[n].runnerID != o.id)
    && (s.mu.Held? && s.mu.stage.Launched? ==> s.mu.stage.resource != o.resource)
  }

  ghost predicate Reconciling(s: State) {
    forall k | k in s.reconciles ::
      match s.reconciles[k]
      case Listed(owned) => forall o | o in owned :: o.resource in s.known && s.known[o.resource] == o.id
      case Working(todo) => forall o | o in todo :: Detached(s, o)
      case Deregistered(todo, current) => Detached(s, current) && forall o | o in todo :: Detached(s, o)
  }

  // ---------------------------------------------------------------- callers are kept

  /** No goroutine but the listener touches the listener's calls or its list of names. */
  ghost predicate CallersFrame(s: State, s': State) {
    && s'.runners.Keys == s.runners.Keys && s'.l.states.Keys == s.l.states.Keys && s'.l.desired == s.l.desired
    && (forall n | n in s.runners :: s'.runners[n].calls.Keys <= s.runners[n].calls.Keys + {Watcher})
    && (forall n | n in s.l.states :: s.l.states[n].cleanupStarted ==> s'.l.states[n].cleanupStarted)
    && s.shutdowns.Keys <= s'.shutdowns.Keys
    && (s'.listener == s.listener || (s'.listener == Idle && s.listener.Launching?))
    && (s'.mu == s.mu || s'.mu == Free || (s'.mu.Held? && s'.mu.lockedBy.ForRefill?)
        || (s.mu.Held? && s'.mu.Held? && s'.mu.lockedBy == s.mu.lockedBy && s'.listener == s.listener))
    && (s'.listener != s.listener ==> s'.mu == Free)
  }

  lemma CallersFramed(s: State, s': State)
    requires Callers(s) && CallersFrame(s, s')
    ensures Callers(s')
  {
    forall n, c | n in s'.runners && c in s'.runners[n].calls
      ensures CallerWaits(s', n, c)
    {
      if c != Watcher { assert CallerWaits(s, n, c); }
    }
  }

  lemma FinishCallersFrame(s: State, n: Name, s': State)
    requires FinishFrame(s, n, s')
    ensures CallersFrame(s, s')
  {}

  lemma ExitCallersFrame(s: State, a: ExitAction, s': State)
    requires ExitNext(s, a, s')
    ensures CallersFrame(s, s')
  {}

  lemma ReconcileCallersFrame(s: State, a: ReconcileAction, s': State)
    requires ReconcileNext(s, a, s')
    ensures CallersFrame(s, s')
  {}

  lemma ListenerKeepsCallers(s: State, a: ListenerAction, s': State)
    requires Callers(s) && ListenerNext(s, a, s')
    ensures Callers(s')
  {
    forall n, c | n in s'.runners && c in s'.runners[n].calls
      ensures CallerWaits(s', n, c)
    {
      assert CallerWaits(s, n, c);
    }
  }

  lemma RetryKeepsCallers(s: State, a: RetryAction, s': State)
    requires Callers(s) && Runners(s) && RetryNext(s, a, s')
    ensures Callers(s')
  {
    forall n, c | n in s'.runners && c in s'.runners[n].calls
      ensures CallerWaits(s', n, c)
    {
      if c in s.runners[n].calls { assert CallerWaits(s, n, c); }
    }
  }

  lemma ShutdownKeepsCallers(s: State, a: ShutdownAction, s': State)
    requires Callers(s) && ShutdownNext(s, a, s')
    ensures Callers(s')
  {
  }

  lemma LaunchKeepsCallers(s: State, a: LaunchAction, s': State)
    requires Callers(s) && Ids(s) && LaunchNext(s, a, s')
    ensures Callers(s')
  {
    forall n, c | n in s'.runners && c in s'.runners[n].calls
      ensures CallerWaits(s', n, c)
    {
      assert CallerWaits(s, n, c);
    }
  }

  lemma LaunchEndCallersFrame(s: State, a: LaunchEndAction, s': State)
    requires Callers(s) && LaunchEndNext(s, a, s') && !a.ALaunchRecordPartial?
    ensures CallersFrame(s, s')
  {}

  lemma PartialKeepsCallers(s: State, s': State)
    requires Callers(s) && Ids(s) && LaunchRecordPartial(s, s')
    ensures Callers(s')
  {
    PartialRecordedCallers(s);
    UnlockCallersFrame(PartialRecorded(s), s');
    CallersFramed(PartialRecorded(s), s');
  }

  lemma PartialRecordedCallers(s: State)
    requires Callers(s) && Ids(s) && s.mu.Held? && s.mu.stage.Launched? && s.mu.stage.outcome.Unproven?
    ensures Callers(PartialRecorded(s))
  {
    var t := PartialRecorded(s);
    forall n, c | n in t.runners && c in t.runners[n].calls ensures CallerWaits(t, n, c) {
      if n != s.mu.stage.name { assert CallerWaits(s, n, c); }
    }
  }

  lemma UnlockCallersFrame(s: State, s': State)
    requires Callers(s) && s.mu.Held? && s' == Unlock(s)
    ensures CallersFrame(s, s')
  {}

  // ---------------------------------------------------------------- registrations are kept

  lemma RegistrationsFramed(s: State, s': State)
    requires Registrations(s) && Frame(s, s') && (MidLaunch(s.mu) ==> s'.mu == s.mu)
    requires forall id | id in s.l.pendingRegistrations :: id in s'.l.pendingRegistrations || id in s'.removed
    requires s'.listener.DropRegistration? ==> s'.listener.id in s'.removed
    requires forall k | k in s'.shutdowns && s'.shutdowns[k].DropOne? :: s'.shutdowns[k].id in s'.removed
    ensures Registrations(s')
  {
    forall id | id in s'.ours ensures AnsweredFor(s', id) {
      assert AnsweredFor(s, id);
      if n :| n in s.l.states && s.l.states[n].runnerID == id { assert s'.l.states[n].runnerID == id; }
    }
  }

  lemma LaunchKeepsRegistrations(s: State, a: LaunchAction, s': State)
    requires Registrations(s) && Ids(s) && LaunchNext(s, a, s')
    ensures Registrations(s')
  {
    if a.ALaunchRecord? {
      RecordAdds(s, s');
      AddedKeepsRegistrations(s, s');
    } else {
      forall id | id in s'.ours ensures AnsweredFor(s', id) {
        if id in s.ours {
          assert AnsweredFor(s, id);
          if n :| n in s.l.states && s.l.states[n].runnerID == id { assert s'.l.states[n].runnerID == id; }
        }
      }
    }
  }

  lemma AddedKeepsRegistrations(s: State, s': State)
    requires Registrations(s) && Adds(s, s') && s'.removed == s.removed
    requires s'.shutdowns == s.shutdowns && (s'.listener == s.listener || s'.listener == Idle)
    ensures Registrations(s')
  {
    forall id | id in s'.ours ensures AnsweredFor(s', id) { AddedAnswersFor(s, s', id); }
  }

  lemma AddedAnswersFor(s: State, s': State, id: RunnerId)
    requires AnsweredFor(s, id) && Adds(s, s') && s'.removed == s.removed
    ensures AnsweredFor(s', id)
  {
    if n :| n in s.l.states && s.l.states[n].runnerID == id {
      assert s'.l.states[n].runnerID == id;
    } else if InLaunch(s.mu, id) {
      assert s'.l.states[s.mu.stage.name].runnerID == id;
    }
  }

  lemma LaunchEndKeepsRegistrations(s: State, a: LaunchEndAction, s': State)
    requires Registrations(s) && Ids(s) && LaunchEndNext(s, a, s')
    ensures Registrations(s')
  {
    if a.ALaunchRecordPartial? {
      PartialAdds(s, s');
      AddedKeepsRegistrations(s, s');
    } else {
      forall id | id in s'.ours ensures AnsweredFor(s', id) {
        assert AnsweredFor(s, id);
        if n :| n in s.l.states && s.l.states[n].runnerID == id { assert s'.l.states[n].runnerID == id; }
      }
    }
  }

  // ---------------------------------------------------------------- capacity is kept

  lemma OccupyingShrinks(s: State, s': State)
    requires Frame(s, s')
    ensures |Occupying(s'.l)| <= |Occupying(s.l)|
  {
    SubsetSize(Occupying(s'.l), Occupying(s.l));
  }

  lemma CapacityFramed(s: State, s': State)
    requires WithinCapacity(s) && Frame(s, s')
    requires s'.mu == Free || s'.mu == s.mu
    requires s'.mu.Held? ==> s'.l.pendingExits == s.l.pendingExits && s'.l.desired == s.l.desired
    ensures WithinCapacity(s')
  {
    OccupyingShrinks(s, s');
  }

  lemma LockKeepsCapacity(s: State, holder: LaunchBy, s': State)
    requires WithinCapacity(s) && s'.l == s.l && s'.mu == Held(holder, Allowed(s.l, s.l.desired), LoopHead)
    ensures WithinCapacity(s')
  {}

  lemma LaunchKeepsCapacity(s: State, a: LaunchAction, s': State)
    requires WithinCapacity(s) && Ids(s) && LaunchNext(s, a, s')
    ensures WithinCapacity(s')
  {
    if a.ALaunchRecord? {
      RecordAdds(s, s');
      AddedKeepsCapacity(s, s');
    } else {
      assert Occupying(s'.l) == Occupying(s.l);
    }
  }

  lemma AddedOccupiesOne(s: State, s': State)
    requires Adds(s, s')
    ensures Occupying(s'.l) == Occupying(s.l) + {s.mu.stage.name}
  {}

  lemma AddedKeepsCapacity(s: State, s': State)
    requires WithinCapacity(s) && HeldIds(s) && Adds(s, s') && s.mu.left > 0
    requires s'.mu == Free || (s'.mu.Held? && s'.mu.left == s.mu.left - 1)
    ensures WithinCapacity(s')
  {
    AddedOccupiesOne(s, s');
  }

  lemma LaunchEndKeepsCapacity(s: State, a: LaunchEndAction, s': State)
    requires WithinCapacity(s) && Ids(s) && LaunchEndNext(s, a, s')
    ensures WithinCapacity(s')
  {
    if a.ALaunchRecordPartial? {
      PartialAdds(s, s');
      AddedKeepsCapacity(s, s');
    } else {
      assert Occupying(s'.l) == Occupying(s.l);
    }
  }

  // ---------------------------------------------------------------- stop reports are kept

  lemma StopsFramed(s: State, s': State)
    requires Stops(s) && Frame(s, s') && (MidLaunch(s.mu) ==> s'.mu == s.mu)
    requires s'.stops == s.stops ||
             (exists n :: n in s.runners && s'.stops == CountStop(s.stops, s.runners[n].attempt)
                          && (MidLaunch(s.mu) ==> s.runners[n].attempt != s.l.seqNo)
                          && s.runners[n].attempt in s.stops)
    ensures Stops(s')
  {
    forall a | a in s'.stops ensures StopCounted(s', a) {
      assert a in s.stops ==> StopCounted(s, a);
      if n :| n in s.runners && s.runners[n].attempt == a { assert s'.runners[n].attempt == a; }
    }
  }

  lemma LaunchKeepsStops(s: State, a: LaunchAction, s': State)
    requires Stops(s) && Ids(s) && LaunchNext(s, a, s')
    ensures Stops(s')
  {
    if a.ALaunchRecord? {
      RecordAdds(s, s');
      AddedKeepsStops(s, s');
    } else {
      forall k | k in s'.stops ensures StopCounted(s', k) { assert k in s.stops ==> StopCounted(s, k); }
    }
  }

  lemma AddedKeepsStops(s: State, s': State)
    requires Stops(s) && Adds(s, s') && s'.stops == s.stops
    ensures Stops(s')
  {
    assert s'.runners[s.mu.stage.name].attempt == s.l.seqNo;
    forall k | k in s'.stops ensures StopCounted(s', k) {
      assert StopCounted(s, k);
      if n :| n in s.runners && s.runners[n].attempt == k { assert s'.runners[n].attempt == k; }
    }
  }

  lemma LaunchErrorKeepsStops(s: State, t: State)
    requires Stops(s) && MidLaunch(s.mu) && t.mu == Free && t.l.seqNo == s.l.seqNo
    requires t.stops == CountStop(s.stops, s.l.seqNo)
    requires forall n | n in s.runners :: n in t.runners && t.runners[n].attempt == s.runners[n].attempt
    ensures Stops(t)
  {
    forall k | k in t.stops ensures StopCounted(t, k) {
      assert k in s.stops ==> StopCounted(s, k);
      if n :| n in s.runners && s.runners[n].attempt == k { assert t.runners[n].attempt == k; }
    }
  }

  lemma LaunchEndKeepsStops(s: State, a: LaunchEndAction, s': State)
    requires Stops(s) && Ids(s) && LaunchEndNext(s, a, s') && !a.ALaunchUnlock?
    ensures Stops(s')
  {
    match a {
      case ALaunchRecordPartial => PartialKeepsStops(s, s');
      case ALaunchUnregisterError(gone) => UnregisterErrorKeepsStops(s, gone, s');
      case _ => LaunchErrorKeepsStops(s, s');
    }
  }

  lemma UnregisterErrorKeepsStops(s: State, gone: bool, s': State)
    requires Stops(s) && LaunchUnregisterError(s, gone, s')
    ensures Stops(s')
  {
    LaunchErrorKeepsStops(s, s');
  }

  lemma PartialKeepsStops(s: State, s': State)
    requires Stops(s) && Ids(s) && LaunchRecordPartial(s, s')
    ensures Stops(s')
  {
    PartialAdds(s, s');
    LaunchErrorKeepsStops(s, s');
  }

  lemma UnlockKeepsStops(s: State, s': State)
    requires Stops(s) && LaunchUnlock(s, s')
    ensures Stops(s')
  {
    LaunchFailFrame(s, s');
    StopsFramed(s, s');
  }

  // ---------------------------------------------------------------- shutdowns are kept

  /** Nothing starts once `stopped` is set, so what a shutdown has seen empty stays empty. */
  lemma StoppingFramed(s: State, s': State)
    requires Stopping(s) && Frame(s, s') && s'.shutdowns == s.shutdowns && s'.l.stopped == s.l.stopped
    requires s.l.stopped ==> s'.mu == s.mu
    requires forall n | n in s.runners :: s.runners[n].calls.Keys - {Listener, Watcher} <= s'.runners[n].calls.Keys
    ensures Stopping(s')
  {
    forall k | k in s'.shutdowns ensures s'.l.stopped && ShutdownStaged(s', k) {
      assert ShutdownStaged(s, k);
      if s.shutdowns[k].Joining? {
        forall n | n in s.shutdowns[k].names ensures n in s'.runners && Shutdown(k) in s'.runners[n].calls {
          assert n in s.runners && Shutdown(k) in s.runners[n].calls;
        }
      }
    }
  }

  lemma ShutdownKeepsStopping(s: State, a: ShutdownAction, s': State)
    requires Stopping(s) && s.runners.Keys == s.l.states.Keys && s.l.running <= s.l.states.Keys && Runners(s)
    requires ShutdownNext(s, a, s')
    ensures Stopping(s')
  {
    match a {
      case AShutdownBegin(k) => BeginKeepsStopping(s, k, s');
      case AShutdownJoin(k, failed) => JoinKeepsStopping(s, k, failed, s');
      case _ =>
    }
  }

  lemma BeginKeepsStopping(s: State, k: nat, s': State)
    requires Stopping(s) && s.l.running <= s.l.states.Keys == s.runners.Keys && ShutdownBegin(s, k, s')
    ensures Stopping(s')
  {
    forall j | j in s'.shutdowns ensures ShutdownStaged(s', j) { assert j in s.shutdowns ==> ShutdownStaged(s, j); }
  }

  lemma JoinKeepsStopping(s: State, k: nat, failed: bool, s': State)
    requires Stopping(s) && s.runners.Keys == s.l.states.Keys && s.l.running <= s.l.states.Keys && Runners(s)
    requires ShutdownJoin(s, k, failed, s')
    ensures Stopping(s')
  {
    if !failed { JoinedAllLeft(s, k, s'); }
    forall j | j in s'.shutdowns ensures ShutdownStaged(s', j) { assert ShutdownStaged(s, j); }
  }

  /** Whoever joined all cleanups without an error has seen every name leave. */
  lemma JoinedAllLeft(s: State, k: nat, s': State)
    requires Stopping(s) && s.runners.Keys == s.l.states.Keys && s.l.running <= s.l.states.Keys && Runners(s)
    requires ShutdownJoin(s, k, false, s')
    ensures s.l.running == {}
  {
    forall n | n in s.shutdowns[k].names ensures n !in s.l.running {
      assert ReturnedCall(s, n, Shutdown(k)) && Known(s, n);
      assert CallStaged(ViewOf(s, n), Shutdown(k));
    }
    assert ShutdownStaged(s, k);
  }

  // ---------------------------------------------------------------- reconciliations are kept

  lemma DetachedFramed(s: State, s': State, o: Owned)
    requires Detached(s, o) && Frame(s, s') && HeldIds(s)
    ensures Detached(s', o)
  {}

  lemma ReconcilingFramed(s: State, s': State)
    requires Reconciling(s) && Frame(s, s') && HeldIds(s) && s'.reconciles == s.reconciles
    ensures Reconciling(s')
  {
    forall o | Detached(s, o) ensures Detached(s', o) { DetachedFramed(s, s', o); }
  }

  lemma LaunchKeepsDetached(s: State, a: LaunchAction, s': State, o: Owned)
    requires Detached(s, o) && Ids(s) && LaunchNext(s, a, s')
    ensures Detached(s', o)
  {}

  lemma LaunchKeepsReconciling(s: State, a: LaunchAction, s': State)
    requires Reconciling(s) && Ids(s) && LaunchNext(s, a, s')
    ensures Reconciling(s')
  {
    forall o | Detached(s, o) ensures Detached(s', o) { LaunchKeepsDetached(s, a, s', o); }
  }

  lemma PartialKeepsDetached(s: State, s': State, o: Owned)
    requires Detached(s, o) && Ids(s) && LaunchRecordPartial(s, s')
    ensures Detached(s', o)
  {}

  lemma UnregisterKeepsDetached(s: State, gone: bool, s': State, o: Owned)
    requires Detached(s, o) && Ids(s) && LaunchUnregisterError(s, gone, s')
    ensures Detached(s', o)
  {}

  lemma ReconcileKeepsReconciling(s: State, a: ReconcileAction, s': State)
    requires Reconciling(s) && Ids(s) && ReconcileNext(s, a, s')
    ensures Reconciling(s')
  {
    ReconcileFrame(s, a, s');
    forall o | Detached(s, o) ensures Detached(s', o) { DetachedFramed(s, s', o); }
    match a {
      case AReconcileSnapshot(k) =>
        forall o | o in s'.reconciles[k].todo ensures Detached(s', o) {
          assert !ActiveHandle(s.l, o.resource);
          forall n | n in s.l.running && !s.runners[n].partial
            ensures s.runners[n].resource != o.resource && s.l.states[n].runnerID != o.id
          { assert RunnerIds(s, n); }
        }
      case _ =>
    }
  }
}
