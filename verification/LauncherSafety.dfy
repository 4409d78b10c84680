/** What the launcher promises, over every run and every interleaving of its goroutines. */
module LauncherSafety {
  import opened Common
  import opened LauncherState
  import opened LauncherProtocol
  import opened LauncherInvariants
  import opened LauncherRunners
  import opened LauncherShared
  import opened LauncherInduction

  // ---------------------------------------------------------------- what never goes back

  /** Cleanup stages, histories and `stopped` only move forward; a forgotten name stays forgotten. */
  ghost predicate Later(s: State, s': State) {
    && (s.l.stopped ==> s'.l.stopped)
    && (forall n | Known(s, n) ::
          && Known(s', n) && Progress(s.l.states[n], s'.l.states[n]) && SameLaunch(s.runners[n], s'.runners[n])
          && (n !in s.l.running ==> n !in s'.l.running))
  }

  lemma FrameLater(s: State, s': State)
    requires Frame(s, s')
    ensures Later(s, s')
  {}

  lemma AddedLater(s: State, s': State)
    requires Adds(s, s')
    ensures Later(s, s')
  {}

  lemma LaunchLater(s: State, a: LaunchAction, s': State)
    requires Ids(s) && LaunchNext(s, a, s')
    ensures Later(s, s')
  {
    if a.ALaunchRecord? {
      RecordAdds(s, s');
      AddedLater(s, s');
    }
  }

  lemma UnregisterLater(s: State, gone: bool, s': State)
    requires LaunchUnregisterError(s, gone, s')
    ensures Later(s, s')
  {}

  lemma LaunchEndLater(s: State, a: LaunchEndAction, s': State)
    requires Ids(s) && LaunchEndNext(s, a, s')
    ensures Later(s, s')
  {
    match a {
      case ALaunchRecordPartial => PartialAdds(s, s'); AddedLater(s, s');
      case ALaunchUnregisterError(gone) => UnregisterLater(s, gone, s');
      case _ => LaunchFailFrame(s, s'); FrameLater(s, s');
    }
  }

  lemma StepLater(s: State, a: Action, s': State)
    requires Ids(s) && Next(s, a, s')
    ensures Later(s, s')
  {
    match a {
      case OfListener(b) => ListenerFrame(s, b, s'); FrameLater(s, s');
      case OfRetry(b) => RetryFrame(s, b, s'); FrameLater(s, s');
      case OfLaunch(b) => LaunchLater(s, b, s');
      case OfLaunchEnd(b) => LaunchEndLater(s, b, s');
      case OfExit(b) => ExitFrame(s, b, s'); FrameLater(s, s');
      case OfTerminate(b) => TerminateFrame(s, b, s'); FinishIsFrame(s, b.n, s'); FrameLater(s, s');
      case OfRelease(b) => ReleaseFrame(s, b, s'); FinishIsFrame(s, b.n, s'); FrameLater(s, s');
      case OfShutdown(b) => ShutdownFrame(s, b, s'); FrameLater(s, s');
      case OfReconcile(b) => ReconcileFrame(s, b, s'); FrameLater(s, s');
    }
  }

  lemma LaterTrans(s: State, t: State, u: State)
    requires Later(s, t) && Later(t, u)
    ensures Later(s, u)
  {}

  lemma LaterSelf(s: State)
    ensures Later(s, s)
  {}

  lemma LaterAt(run: Run, max: int, k: nat)
    requires ValidRun(run, max) && k < |run.actions|
    ensures Later(run.states[k], run.states[k + 1])
  {
    InvAt(run, max, k);
    StepLater(run.states[k], run.actions[k], run.states[k + 1]);
  }

  lemma {:induction false} RunLater(run: Run, max: int, i: nat, j: nat)
    requires ValidRun(run, max) && i <= j < |run.states|
    ensures Later(run.states[i], run.states[j])
    decreases j - i
  {
    if i < j {
      RunLater(run, max, i, j - 1);
      LaterAt(run, max, j - 1);
      LaterTrans(run.states[i], run.states[j - 1], run.states[j]);
    } else {
      LaterSelf(run.states[i]);
    }
  }

  // ---------------------------------------------------------------- registrations

  /** A busy runner that ended by itself, fully cleaned up and left to deregister itself. */
  predicate LeftToItself(s: State, n: Name) {
    && Known(s, n) && n !in s.l.running
    && s.l.states[n].cleaned && s.l.states[n].busy && EndedItself(s.runners[n].watch)
  }

  /** No registration leaks: whenever the mutex is free, every id this launcher was issued is accounted for. */
  lemma NoRegistrationLeaks(run: Run, max: int, i: nat, id: RunnerId)
    requires ValidRun(run, max) && i < |run.states|
    requires run.states[i].mu == Free && id in run.states[i].ours
    ensures var s := run.states[i];
      || (exists n :: n in s.l.running && n in s.l.states && s.l.states[n].runnerID == id)
      || id in s.l.pendingRegistrations
      || id in s.removed
      || (exists n :: LeftToItself(s, n) && s.l.states[n].runnerID == id)
  {
    InvAt(run, max, i);
    var s := run.states[i];
    assert AnsweredFor(s, id);
    if n :| n in s.l.states && s.l.states[n].runnerID == id {
      assert Sound(ViewOf(s, n));
      if n !in s.l.running && !s.l.states[n].registrationRemoved { assert LeftToItself(s, n); }
    }
  }

  // ---------------------------------------------------------------- demand and capacity

  lemma AddedOccupies(s: State, s': State)
    requires HeldIds(s) && WithinCapacity(s) && Adds(s, s') && s.mu.left > 0
    ensures |Occupying(s'.l)| + |s'.l.pendingExits| <= s'.l.desired
  {
    AddedOccupiesOne(s, s');
  }

  /** Every launch leaves occupied slots plus unaccounted exits within what the broker last asked for. */
  lemma DemandNeverOverserved(run: Run, max: int, i: nat)
    requires ValidRun(run, max) && i < |run.actions|
    requires run.actions[i] == OfLaunch(ALaunchRecord) || run.actions[i] == OfLaunchEnd(ALaunchRecordPartial)
    ensures var s' := run.states[i + 1];
      |Occupying(s'.l)| + |s'.l.pendingExits| <= s'.l.desired
  {
    InvAt(run, max, i);
    var s, s' := run.states[i], run.states[i + 1];
    assert Next(s, run.actions[i], s');
    if run.actions[i].OfLaunch? { RecordAdds(s, s'); } else { PartialAdds(s, s'); }
    AddedOccupies(s, s');
  }

  /** A launch is begun only when demand and capacity leave room for it. */
  lemma LaunchHasRoom(run: Run, max: int, i: nat)
    requires ValidRun(run, max) && i < |run.actions| && run.actions[i] == OfLaunch(ALaunchBegin)
    ensures var s := run.states[i];
      && !s.l.stopped && |Occupying(s.l)| + |s.l.pendingExits| < s.l.desired
      && (s.l.maxRunners > 0 ==> |Occupying(s.l)| < s.l.maxRunners)
  {
    InvAt(run, max, i);
    assert Next(run.states[i], run.actions[i], run.states[i + 1]);
  }

  /** Once the broker accounted for an exit, it is never subtracted from demand again. */
  lemma AccountedExitStaysOut(run: Run, max: int, i: nat, j: nat, n: Name)
    requires ValidRun(run, max) && i <= j < |run.states|
    requires Known(run.states[i], n) && run.states[i].runners[n].accounted
    ensures n !in run.states[j].l.pendingExits
  {
    RunLater(run, max, i, j);
    InvAt(run, max, j);
    assert Sound(ViewOf(run.states[j], n));
  }

  predicate EntersPending(run: Run, i: nat, n: Name)
    requires i + 1 < |run.states|
  {
    n !in run.states[i].l.pendingExits && n in run.states[i + 1].l.pendingExits
  }

  /** Neither does a running name disappear, nor is an exit subtracted. */
  ghost predicate Steady(s: State, s': State) {
    s.l.running <= s'.l.running && s'.l.pendingExits.Keys <= s.l.pendingExits.Keys
  }

  lemma ListenerSteady(s: State, a: ListenerAction, s': State)
    requires ListenerNext(s, a, s')
    ensures Steady(s, s')
  {}

  lemma RetrySteady(s: State, a: RetryAction, s': State)
    requires RetryNext(s, a, s')
    ensures Steady(s, s')
  {}

  lemma LaunchSteady(s: State, a: LaunchAction, s': State)
    requires LaunchNext(s, a, s')
    ensures Steady(s, s')
  {}

  lemma LaunchEndSteady(s: State, a: LaunchEndAction, s': State)
    requires LaunchEndNext(s, a, s')
    ensures Steady(s, s')
  {}

  lemma ExitSteady(s: State, a: ExitAction, s': State)
    requires ExitNext(s, a, s')
    ensures s'.l.running == s.l.running
    ensures s'.l.pendingExits.Keys <= s.l.pendingExits.Keys + (if a.ARecordCleanExit? then {a.n} else {})
    ensures a.ARecordCleanExit? ==> Known(s, a.n) && s.runners[a.n].watch.Exited?
  {}

  lemma TerminateSteady(s: State, a: TerminateAction, s': State)
    requires TerminateNext(s, a, s')
    ensures Steady(s, s')
  {}

  lemma ReleaseSteady(s: State, a: ReleaseAction, s': State)
    requires ReleaseNext(s, a, s')
    ensures s'.l.pendingExits == s.l.pendingExits
    ensures s'.l.running == s.l.running - (if a.AFinishDelete? then {a.n} else {})
  {}

  lemma ShutdownSteady(s: State, a: ShutdownAction, s': State)
    requires ShutdownNext(s, a, s')
    ensures Steady(s, s')
  {}

  lemma ReconcileSteady(s: State, a: ReconcileAction, s': State)
    requires ReconcileNext(s, a, s')
    ensures Steady(s, s')
  {}

  /** Only the recording of a clean exit subtracts it, and only the end of a cleanup forgets a runner. */
  lemma MostlySteady(s: State, a: Action, s': State)
    requires Next(s, a, s')
    ensures Steady(s, s') || (a.OfExit? && a.exit.ARecordCleanExit?) || (a.OfRelease? && a.release.AFinishDelete?)
  {
    match a {
      case OfListener(b) => ListenerSteady(s, b, s');
      case OfRetry(b) => RetrySteady(s, b, s');
      case OfLaunch(b) => LaunchSteady(s, b, s');
      case OfLaunchEnd(b) => LaunchEndSteady(s, b, s');
      case OfExit(b) => ExitSteady(s, b, s');
      case OfTerminate(b) => TerminateSteady(s, b, s');
      case OfRelease(b) => ReleaseSteady(s, b, s');
      case OfShutdown(b) => ShutdownSteady(s, b, s');
      case OfReconcile(b) => ReconcileSteady(s, b, s');
    }
  }

  lemma PendingEntry(s: State, a: Action, s': State, n: Name)
    requires Next(s, a, s') && n !in s.l.pendingExits && n in s'.l.pendingExits
    ensures Known(s, n) && s.runners[n].watch.Exited?
  {
    MostlySteady(s, a, s');
    if a.OfExit? { ExitSteady(s, a.exit, s'); }
    if a.OfRelease? { ReleaseSteady(s, a.release, s'); }
  }

  lemma NoReEntry(t: State, u: State, a: Action, u': State, n: Name)
    requires Runners(t) && Runners(u) && Later(t, u) && Next(u, a, u')
    requires n in t.l.pendingExits && n !in u.l.pendingExits
    ensures n !in u'.l.pendingExits
  {
    assert Sound(ViewOf(t, n)) && Sound(ViewOf(u, n));
    if n in u'.l.pendingExits { PendingEntry(u, a, u', n); }
  }

  /** Each exit is subtracted from demand at most once over the whole run. */
  lemma ExitSubtractedOnce(run: Run, max: int, i: nat, j: nat, n: Name)
    requires ValidRun(run, max) && i < j && j + 1 < |run.states|
    requires EntersPending(run, i, n)
    ensures !EntersPending(run, j, n)
  {
    RunLater(run, max, i + 1, j);
    assert Runners(run.states[i + 1]) by { InvAt(run, max, i + 1); }
    assert Runners(run.states[j]) by { InvAt(run, max, j); }
    assert Next(run.states[j], run.actions[j], run.states[j + 1]);
    if n !in run.states[j].l.pendingExits {
      NoReEntry(run.states[i + 1], run.states[j], run.actions[j], run.states[j + 1], n);
    }
  }

  /** The runners whose instance is live. */
  function Live(s: State): set<Name> {
    set n | n in s.runners && s.runners[n].alive
  }

  /** Capacity holds in every interleaving, and counts every live instance this launcher started. */
  lemma CapacityRespected(run: Run, max: int, i: nat)
    requires ValidRun(run, max) && i < |run.states|
    ensures var s := run.states[i];
      && s.l.maxRunners == max
      && Live(s) <= Occupying(s.l)
      && (max > 0 ==> |Occupying(s.l)| <= max)
      && (max > 0 ==> |Live(s)| + (if s.mu.Held? && s.mu.stage.Launched? && s.mu.stage.alive then 1 else 0) <= max)
  {
    InvAt(run, max, i);
    MaxFixed(run, max, i);
    var s := run.states[i];
    forall n | n in Live(s) ensures n in Occupying(s.l) { assert Sound(ViewOf(s, n)); }
    SubsetSize(Live(s), Occupying(s.l));
  }

  lemma {:induction false} MaxFixed(run: Run, max: int, i: nat)
    requires ValidRun(run, max) && i < |run.states|
    ensures run.states[i].l.maxRunners == max
  {
    if i > 0 {
      MaxFixed(run, max, i - 1);
      assert Next(run.states[i - 1], run.actions[i - 1], run.states[i]);
    }
  }

  // ---------------------------------------------------------------- reconciliation

  /** What a reconciliation is about to deregister or remove, if anything. */
  function ReconcileTarget(s: State, a: Action): Option<Owned> {
    match a
    case OfReconcile(AReconcileDeregister(_, o)) => Some(o)
    case OfReconcile(AReconcileDeregisterError(_, o, _)) => Some(o)
    case OfReconcile(AReconcileRemove(k, _)) =>
      if k in s.reconciles && s.reconciles[k].Deregistered? then Some(s.reconciles[k].current) else None
    case _ => None
  }

  /**
   * Reconciliation never touches a runner that is still listed as running under its resource's id: one
   * that launched without error, or partially with a handle that is no alias.
   */
  lemma ReconcileSparesRunning(run: Run, max: int, i: nat, n: Name)
    requires ValidRun(run, max) && i < |run.actions|
    requires ReconcileTarget(run.states[i], run.actions[i]).Some?
    requires n in run.states[i].l.running && Known(run.states[i], n)
    requires !run.states[i].runners[n].partial || run.states[i].l.states[n].handle == run.states[i].runners[n].resource
    ensures var o := ReconcileTarget(run.states[i], run.actions[i]).value;
      o.resource != run.states[i].runners[n].resource && o.id != run.states[i].l.states[n].runnerID
  {
    InvAt(run, max, i);
    assert Next(run.states[i], run.actions[i], run.states[i + 1]);
    TargetIsDetached(run.states[i], run.actions[i], run.states[i + 1]);
    DetachedSpares(run.states[i], ReconcileTarget(run.states[i], run.actions[i]).value, n);
  }

  lemma TargetIsDetached(s: State, a: Action, s': State)
    requires Reconciling(s) && Next(s, a, s') && ReconcileTarget(s, a).Some?
    ensures Detached(s, ReconcileTarget(s, a).value)
  {}

  lemma DetachedSpares(s: State, o: Owned, n: Name)
    requires Ids(s) && Detached(s, o) && n in s.l.running && Known(s, n)
    requires !s.runners[n].partial || s.l.states[n].handle == s.runners[n].resource
    ensures o.resource != s.runners[n].resource && o.id != s.l.states[n].runnerID
  {
    assert RunnerIds(s, n);
  }

  /** A reconciliation takes up exactly the listed records that no running handle names. */
  lemma OrphansTaken(run: Run, max: int, i: nat, k: nat, o: Owned)
    requires ValidRun(run, max) && i < |run.actions| && run.actions[i] == OfReconcile(AReconcileSnapshot(k))
    ensures var s, s' := run.states[i], run.states[i + 1];
      && k in s.reconciles && s.reconciles[k].Listed? && k in s'.reconciles && s'.reconciles[k].Working?
      && (o in s'.reconciles[k].todo <==>
            o in s.reconciles[k].owned &&
            forall n | n in s.l.running && n in s.l.states :: s.l.states[n].handle != o.resource)
  {
    assert Next(run.states[i], run.actions[i], run.states[i + 1]);
  }

  /** What is deregistered stays so, and a reconciliation about to remove a record has just removed its id. */
  ghost predicate KeepsRemoved(s: State, s': State, k: nat) {
    && s.removed <= s'.removed
    && (k in s'.reconciles && s'.reconciles[k].Deregistered? ==>
          s'.reconciles[k].current.id in s'.removed || (k in s.reconciles && s.reconciles[k] == s'.reconciles[k]))
  }

  lemma LaunchKeepsRemoved(s: State, a: LaunchAction, s': State, k: nat)
    requires LaunchNext(s, a, s')
    ensures KeepsRemoved(s, s', k)
  {}

  lemma LaunchEndKeepsRemoved(s: State, a: LaunchEndAction, s': State, k: nat)
    requires LaunchEndNext(s, a, s')
    ensures KeepsRemoved(s, s', k)
  {}

  lemma ReconcileKeepsRemoved(s: State, a: ReconcileAction, s': State, k: nat)
    requires ReconcileNext(s, a, s')
    ensures KeepsRemoved(s, s', k)
  {}

  lemma ShutdownKeepsRemoved(s: State, a: ShutdownAction, s': State, k: nat)
    requires ShutdownNext(s, a, s')
    ensures KeepsRemoved(s, s', k)
  {}

  lemma StepKeepsRemoved(s: State, a: Action, s': State, k: nat)
    requires Next(s, a, s')
    ensures KeepsRemoved(s, s', k)
  {
    match a {
      case OfListener(b) => ListenerFrame(s, b, s'); ListenerShares(s, b, s');
      case OfRetry(b) => RetryFrame(s, b, s'); RetryShares(s, b, s');
      case OfExit(b) => ExitFrame(s, b, s'); ExitShares(s, b, s');
      case OfTerminate(b) => TerminateFrame(s, b, s');
      case OfRelease(b) => ReleaseFrame(s, b, s');
      case OfLaunch(b) => LaunchKeepsRemoved(s, b, s', k);
      case OfLaunchEnd(b) => LaunchEndKeepsRemoved(s, b, s', k);
      case OfShutdown(b) => ShutdownKeepsRemoved(s, b, s', k);
      case OfReconcile(b) => ReconcileKeepsRemoved(s, b, s', k);
    }
  }

  /** A reconciliation removes a record only after its registration: a failure leaves a record to retry from. */
  lemma {:induction false} DeregisteredFirst(run: Run, max: int, i: nat, k: nat)
    requires ValidRun(run, max) && i < |run.states|
    requires k in run.states[i].reconciles && run.states[i].reconciles[k].Deregistered?
    ensures run.states[i].reconciles[k].current.id in run.states[i].removed
  {
    if i > 0 {
      assert Next(run.states[i - 1], run.actions[i - 1], run.states[i]);
      StepKeepsRemoved(run.states[i - 1], run.actions[i - 1], run.states[i], k);
      var p := run.states[i - 1].reconciles;
      if k in p && p[k].Deregistered? { DeregisteredFirst(run, max, i - 1, k); }
    }
  }

  // ---------------------------------------------------------------- shutdown

  /** The shutdown will report, or has reported, an error. */
  predicate Faulted(s: State, k: nat) {
    k in s.shutdowns &&
    match s.shutdowns[k]
    case Joining(_) => false
    case CopyAll(failed) => failed
    case RemoveAll(failed, _) => failed
    case DropOne(failed, _, _) => failed
    case ShutdownReturned(ok) => !ok
  }

  /** A cleanup of the shutdown returned an error, or GitHub refused a removal. */
  ghost predicate FaultAt(s: State, a: Action, k: nat) {
    || (a == OfShutdown(AShutdownJoin(k, true)) &&
        exists n :: ReturnedCall(s, n, Shutdown(k)) && !s.runners[n].calls[Shutdown(k)].pc.ok)
    || (exists id, gone :: a == OfShutdown(AShutdownRemoveRegistrationError(k, id, gone)))
  }

  lemma ShutdownFaults(s: State, a: ShutdownAction, s': State, k: nat)
    requires ShutdownNext(s, a, s') && Faulted(s', k) && !Faulted(s, k)
    ensures FaultAt(s, OfShutdown(a), k)
  {
    if a.AShutdownJoin? {
      var n :| n in s.shutdowns[a.k].names && !s.runners[n].calls[Shutdown(a.k)].pc.ok;
      assert ReturnedCall(s, n, Shutdown(k));
    }
  }

  lemma LaunchLeavesShutdowns(s: State, a: LaunchAction, s': State)
    requires LaunchNext(s, a, s')
    ensures s'.shutdowns == s.shutdowns
  {}

  lemma LaunchEndLeavesShutdowns(s: State, a: LaunchEndAction, s': State)
    requires LaunchEndNext(s, a, s')
    ensures s'.shutdowns == s.shutdowns
  {}

  lemma ReconcileLeavesShutdowns(s: State, a: ReconcileAction, s': State)
    requires ReconcileNext(s, a, s')
    ensures s'.shutdowns == s.shutdowns
  {}

  lemma OthersLeaveShutdowns(s: State, a: Action, s': State)
    requires Next(s, a, s') && !a.OfShutdown?
    ensures s'.shutdowns == s.shutdowns
  {
    match a {
      case OfListener(b) => ListenerShares(s, b, s');
      case OfRetry(b) => RetryShares(s, b, s');
      case OfExit(b) => ExitShares(s, b, s');
      case OfTerminate(b) => TerminateFrame(s, b, s');
      case OfRelease(b) => ReleaseFrame(s, b, s');
      case OfLaunch(b) => LaunchLeavesShutdowns(s, b, s');
      case OfLaunchEnd(b) => LaunchEndLeavesShutdowns(s, b, s');
      case OfReconcile(b) => ReconcileLeavesShutdowns(s, b, s');
    }
  }

  lemma FaultBegins(run: Run, max: int, j: nat, k: nat)
    requires ValidRun(run, max) && j < |run.actions| && Faulted(run.states[j + 1], k) && !Faulted(run.states[j], k)
    ensures FaultAt(run.states[j], run.actions[j], k)
  {
    assert Next(run.states[j], run.actions[j], run.states[j + 1]);
    if run.actions[j].OfShutdown? {
      ShutdownFaults(run.states[j], run.actions[j].shutdown, run.states[j + 1], k);
    } else {
      OthersLeaveShutdowns(run.states[j], run.actions[j], run.states[j + 1]);
    }
  }

  /** A shutdown reports an error only for a cleanup that failed or a registration that GitHub kept. */
  lemma {:induction false} ShutdownErrorHasCause(run: Run, max: int, i: nat, k: nat)
    requires ValidRun(run, max) && i < |run.states| && Faulted(run.states[i], k)
    ensures exists j :: 0 <= j < i && FaultAt(run.states[j], run.actions[j], k)
  {
    if i > 0 {
      if Faulted(run.states[i - 1], k) {
        ShutdownErrorHasCause(run, max, i - 1, k);
      } else {
        FaultBegins(run, max, i - 1, k);
      }
    }
  }

  /** Once Shutdown has begun, no launch begins or continues. */
  lemma NoLaunchAfterShutdown(run: Run, max: int, i: nat, j: nat)
    requires ValidRun(run, max) && i <= j < |run.actions| && run.states[i].l.stopped
    ensures !run.actions[j].OfLaunch? && !run.actions[j].OfLaunchEnd?
  {
    RunLater(run, max, i, j);
    InvAt(run, max, j);
    assert Next(run.states[j], run.actions[j], run.states[j + 1]);
  }

  /** A shutdown that returned without an error has left nothing running and nothing to deregister, then and later. */
  lemma ShutdownComplete(run: Run, max: int, i: nat, k: nat)
    requires ValidRun(run, max) && i < |run.states|
    requires k in run.states[i].shutdowns && run.states[i].shutdowns[k] == ShutdownReturned(true)
    ensures var s := run.states[i];
      s.l.running == {} && s.l.pendingRegistrations == map[] && Live(s) == {} && s.mu == Free
  {
    InvAt(run, max, i);
    CapacityRespected(run, max, i);
    var s := run.states[i];
    assert ShutdownStaged(s, k);
    assert Occupying(s.l) == {};
  }

  // ---------------------------------------------------------------- the order of a cleanup

  /** What must already be true of a runner when one of its cleanup stages runs. */
  predicate InOrder(st: RunnerState, r: Runner, a: Action) {
    match a
    case OfTerminate(AFinishKill(_, _)) => !st.terminated
    case OfTerminate(AFinishKillError(_, _, _)) => !st.terminated
    case OfTerminate(AFinishConfirm(_, _)) => !st.terminated && !r.alive
    case OfRelease(AFinishDeregister(_, _)) => st.terminated && !st.registrationRemoved
    case OfRelease(AFinishDeregisterError(_, _, _)) => st.terminated && !st.registrationRemoved
    case OfRelease(AFinishRemove(_, _)) =>
      st.terminated && !st.cleaned && (st.needsDeregistration ==> st.registrationRemoved)
    case OfRelease(AFinishRemoveError(_, _, _)) =>
      st.terminated && !st.cleaned && (st.needsDeregistration ==> st.registrationRemoved)
    case OfRelease(AFinishDelete(_, _)) => st.cleaned
    case _ => true
  }

  predicate Touches(a: Action, n: Name) {
    (a.OfTerminate? && a.terminate.n == n) || (a.OfRelease? && a.release.n == n)
  }

  lemma StepInOrder(s: State, a: Action, s': State, n: Name)
    requires Runners(s) && Next(s, a, s') && Touches(a, n)
    ensures Known(s, n) && InOrder(s.l.states[n], s.runners[n], a) && (a.OfRelease? ==> n in s.l.running)
  {
    if a.OfTerminate? { TerminateInOrder(s, a.terminate, s'); } else { ReleaseInOrder(s, a.release, s'); }
  }

  lemma TerminateInOrder(s: State, a: TerminateAction, s': State)
    requires Runners(s) && TerminateNext(s, a, s')
    ensures Known(s, a.n) && InOrder(s.l.states[a.n], s.runners[a.n], OfTerminate(a))
  {
    assert Known(s, a.n);
    assert Sound(ViewOf(s, a.n)) && CallStaged(ViewOf(s, a.n), a.c);
  }

  lemma ReleaseInOrder(s: State, a: ReleaseAction, s': State)
    requires Runners(s) && ReleaseNext(s, a, s')
    ensures Known(s, a.n) && InOrder(s.l.states[a.n], s.runners[a.n], OfRelease(a)) && a.n in s.l.running
  {
    assert Known(s, a.n);
    assert Sound(ViewOf(s, a.n)) && CallStaged(ViewOf(s, a.n), a.c);
  }

  /**
   * Termination is confirmed before deregistration, that before the record goes, and that before the
   * runner is forgotten.
   */
  lemma CleanupInOrder(run: Run, max: int, i: nat, n: Name)
    requires ValidRun(run, max) && i < |run.actions| && Touches(run.actions[i], n)
    ensures var s := run.states[i];
      Known(s, n) && InOrder(s.l.states[n], s.runners[n], run.actions[i])
      && (run.actions[i].OfRelease? ==> n in s.l.running)
  {
    assert Runners(run.states[i]) by { InvAt(run, max, i); }
    assert Next(run.states[i], run.actions[i], run.states[i + 1]);
    StepInOrder(run.states[i], run.actions[i], run.states[i + 1], n);
  }

  /** A name leaves `running` only when its cleanup is complete. */
  lemma ForgottenOnlyWhenCleaned(run: Run, max: int, i: nat, n: Name)
    requires ValidRun(run, max) && i < |run.actions|
    requires n in run.states[i].l.running && n !in run.states[i + 1].l.running
    ensures run.actions[i].OfRelease? && run.actions[i].release.AFinishDelete? && run.actions[i].release.n == n
    ensures Known(run.states[i], n) && run.states[i].l.states[n].cleaned
  {
    var s, a, s' := run.states[i], run.actions[i], run.states[i + 1];
    assert Next(s, a, s');
    MostlySteady(s, a, s');
    if a.OfExit? { ExitSteady(s, a.exit, s'); }
    if a.OfRelease? { ReleaseSteady(s, a.release, s'); }
    CleanupInOrder(run, max, i, n);
  }

  /** A stage that finished is not run again by any later retry, of whichever goroutine. */
  predicate Finishes(a: Action, n: Name, stage: FinishPc) {
    match a
    case OfTerminate(AFinishConfirm(m, _)) => m == n && stage == Confirming
    case OfRelease(AFinishDeregister(m, _)) => m == n && stage == Deregistering
    case OfRelease(AFinishRemove(m, _)) => m == n && stage == Removing
    case OfRelease(AFinishDelete(m, _)) => m == n && stage == Deleting
    case _ => false
  }

  lemma StagesRunOnce(run: Run, max: int, i: nat, j: nat, n: Name, stage: FinishPc)
    requires ValidRun(run, max) && i < j < |run.actions| && Finishes(run.actions[i], n, stage)
    ensures !Finishes(run.actions[j], n, stage)
  {
    if Finishes(run.actions[j], n, stage) {
      CleanupInOrder(run, max, i, n);
      CleanupInOrder(run, max, j, n);
      StageFinishes(run, max, i, n, stage);
      RunLater(run, max, i + 1, j);
      DoneStays(run.states[i + 1], run.states[j], n, stage);
      NotTwice(run.states[j], run.actions[j], n, stage);
    }
  }

  lemma NotTwice(s: State, a: Action, n: Name, stage: FinishPc)
    requires Done(s, n, stage) && InOrder(s.l.states[n], s.runners[n], a) && (a.OfRelease? ==> n in s.l.running)
    ensures !Finishes(a, n, stage)
  {}

  /** The stage is on record as done. */
  predicate Done(s: State, n: Name, stage: FinishPc) {
    && Known(s, n)
    && (stage.Confirming? ==> s.l.states[n].terminated) && (stage.Deregistering? ==> s.l.states[n].registrationRemoved)
    && (stage.Removing? ==> s.l.states[n].cleaned) && (stage.Deleting? ==> n !in s.l.running)
  }

  lemma DoneStays(t: State, u: State, n: Name, stage: FinishPc)
    requires Done(t, n, stage) && Later(t, u)
    ensures Done(u, n, stage)
  {}

  lemma StageFinishes(run: Run, max: int, i: nat, n: Name, stage: FinishPc)
    requires ValidRun(run, max) && i < |run.actions| && Finishes(run.actions[i], n, stage)
    requires Known(run.states[i], n)
    ensures Done(run.states[i + 1], n, stage)
  {
    assert Next(run.states[i], run.actions[i], run.states[i + 1]);
    StageDone(run.states[i], run.actions[i], run.states[i + 1], n, stage);
  }

  lemma StageDone(s: State, a: Action, s': State, n: Name, stage: FinishPc)
    requires Next(s, a, s') && Known(s, n) && Finishes(a, n, stage)
    ensures Done(s', n, stage)
  {}

  /** The launch attempt has failed, or its runner's termination was confirmed and reported. */
  ghost predicate Ended(s: State, attempt: nat) {
    && !(MidLaunch(s.mu) && attempt == s.l.seqNo)
    && forall n | n in s.runners && s.runners[n].attempt == attempt ::
         s.runners[n].partial || (n in s.l.states && s.l.states[n].terminated && !ReportInProgress(s.runners[n]))
  }

  /** Each OnStart gets exactly one OnStop, once its launch fails or its runner is confirmed terminated. */
  lemma EveryStartStopsOnce(run: Run, max: int, i: nat, attempt: nat)
    requires ValidRun(run, max) && i < |run.states| && 1 <= attempt <= run.states[i].l.seqNo
    ensures var s := run.states[i];
      attempt in s.stops && s.stops[attempt] == if Ended(s, attempt) then 1 else 0
  {
    InvAt(run, max, i);
    var s := run.states[i];
    if n :| n in s.runners && s.runners[n].attempt == attempt {
      assert Sound(ViewOf(s, n));
      if Ended(s, attempt) { assert s.runners[n].partial || s.l.states[n].terminated; }
    }
  }
}
