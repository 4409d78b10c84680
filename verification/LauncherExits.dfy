/** What becomes of a runner's registration, its exit and its job once its process has ended. */
module LauncherExits {
  import opened Common
  import opened LauncherState
  import opened LauncherProtocol
  import opened LauncherInvariants
  import opened LauncherRunners
  import opened LauncherShared
  import opened LauncherInduction
  import opened LauncherSafety

  // ---------------------------------------------------------------- who is deregistered

  lemma FirstBegun(s: State, n: Name, c: Caller, s': State)
    requires Known(s, n) && Sound(ViewOf(s, n)) && FinishBegin(s, n, c, s') && !s.l.states[n].cleanupStarted
    ensures Known(s', n) && s'.l.states[n].cleanupStarted
    ensures s'.l.states[n].needsDeregistration <==>
            !(c == Watcher && EndedItself(s.runners[n].watch) && s.l.states[n].busy)
  {
    assert CallStaged(ViewOf(s, n), c);
  }

  lemma FirstBegunAt(run: Run, max: int, i: nat, n: Name, c: Caller)
    requires ValidRun(run, max) && i < |run.actions| && run.actions[i] == OfTerminate(AFinishBegin(n, c))
    requires Known(run.states[i], n) && !run.states[i].l.states[n].cleanupStarted
    ensures Known(run.states[i + 1], n) && run.states[i + 1].l.states[n].cleanupStarted
    ensures run.states[i + 1].l.states[n].needsDeregistration <==>
            !(c == Watcher && EndedItself(run.states[i].runners[n].watch) && run.states[i].l.states[n].busy)
  {
    assert Runners(run.states[i]) by { InvAt(run, max, i); }
    assert Next(run.states[i], run.actions[i], run.states[i + 1]);
    FirstBegun(run.states[i], n, c, run.states[i + 1]);
  }

  lemma RunFirstBegun(run: Run, max: int, i: nat, j: nat, n: Name, c: Caller)
    requires ValidRun(run, max) && i < j < |run.states| && run.actions[i] == OfTerminate(AFinishBegin(n, c))
    requires Known(run.states[i], n) && !run.states[i].l.states[n].cleanupStarted
    ensures Known(run.states[j], n) && run.states[j].l.states[n].cleanupStarted
    ensures run.states[j].l.states[n].needsDeregistration <==>
            !(c == Watcher && EndedItself(run.states[i].runners[n].watch) && run.states[i].l.states[n].busy)
  {
    FirstBegunAt(run, max, i, n, c);
    RunLater(run, max, i + 1, j);
  }

  lemma DeregisterNeeds(s: State, a: ReleaseAction, s': State)
    requires Runners(s) && ReleaseNext(s, a, s') && (a.AFinishDeregister? || a.AFinishDeregisterError?)
    ensures Known(s, a.n) && s.l.states[a.n].cleanupStarted && s.l.states[a.n].needsDeregistration
  {
    assert Sound(ViewOf(s, a.n)) && CallStaged(ViewOf(s, a.n), a.c);
  }

  predicate DeregistersNow(a: Action, n: Name) {
    a.OfRelease? && a.release.n == n && (a.release.AFinishDeregister? || a.release.AFinishDeregisterError?)
  }

  lemma DeregisterNeedsAt(run: Run, max: int, j: nat, n: Name)
    requires ValidRun(run, max) && j < |run.actions| && DeregistersNow(run.actions[j], n)
    ensures var s := run.states[j];
      Known(s, n) && s.l.states[n].cleanupStarted && s.l.states[n].needsDeregistration
  {
    assert Runners(run.states[j]) by { InvAt(run, max, j); }
    assert Next(run.states[j], run.actions[j], run.states[j + 1]);
    DeregisterNeeds(run.states[j], run.actions[j].release, run.states[j + 1]);
  }

  /**
   * A busy runner that ended by itself deregisters itself: when its watcher begins the first cleanup,
   * after a Wait without error, no step of the whole run, of whichever goroutine, deregisters it.
   */
  lemma FinishedJobKeepsRegistration(run: Run, max: int, i: nat, j: nat, n: Name, code: int)
    requires ValidRun(run, max) && i < |run.actions| && j < |run.actions|
    requires run.actions[i] == OfTerminate(AFinishBegin(n, Watcher)) && Known(run.states[i], n)
    requires !run.states[i].l.states[n].cleanupStarted && run.states[i].l.states[n].busy
    requires run.states[i].runners[n].watch == WatchPc.Finishing(code, false)
    ensures forall c :: run.actions[j] != OfRelease(AFinishDeregister(n, c))
    ensures forall c, gone :: run.actions[j] != OfRelease(AFinishDeregisterError(n, c, gone))
  {
    if DeregistersNow(run.actions[j], n) {
      DeregisterNeedsAt(run, max, j, n);
      if i < j { RunFirstBegun(run, max, i, j, n, Watcher); } else { RunLater(run, max, j, i); }
    }
  }

  /** Every other runner is deregistered before its cleanup is complete. */
  lemma OthersDeregistered(run: Run, max: int, i: nat, j: nat, n: Name, c: Caller)
    requires ValidRun(run, max) && i < j < |run.states|
    requires run.actions[i] == OfTerminate(AFinishBegin(n, c)) && Known(run.states[i], n)
    requires !run.states[i].l.states[n].cleanupStarted
    requires c != Watcher || !EndedItself(run.states[i].runners[n].watch) || !run.states[i].l.states[n].busy
    ensures Known(run.states[j], n)
    ensures n !in run.states[j].l.running || run.states[j].l.states[n].cleaned ==>
              && run.states[j].l.states[n].registrationRemoved
              && run.states[i].l.states[n].runnerID in run.states[j].removed
  {
    RunFirstBegun(run, max, i, j, n, c);
    RunLater(run, max, i, j);
    assert Sound(ViewOf(run.states[j], n)) by { InvAt(run, max, j); }
  }

  // ---------------------------------------------------------------- the exit a runner is remembered by

  /** The exit on record is the one that Wait returned. */
  predicate Noted(s: State, n: Name, code: int, err: bool) {
    && Known(s, n) && s.l.states[n].cleanupStarted
    && s.l.states[n].exitCode == code && s.l.states[n].waitErr == err
    && PastRecord(s.runners[n].watch) && s.runners[n].watch.code == code && s.runners[n].watch.err == err
  }

  lemma ListenerNotes(s: State, a: ListenerAction, s': State, n: Name, code: int, err: bool)
    requires ListenerNext(s, a, s') && Noted(s, n, code, err)
    ensures Noted(s', n, code, err)
  {}

  lemma RetryNotes(s: State, a: RetryAction, s': State, n: Name, code: int, err: bool)
    requires RetryNext(s, a, s') && Noted(s, n, code, err)
    ensures Noted(s', n, code, err)
  {}

  lemma LaunchNotes(s: State, a: LaunchAction, s': State, n: Name, code: int, err: bool)
    requires Ids(s) && LaunchNext(s, a, s') && Noted(s, n, code, err)
    ensures Noted(s', n, code, err)
  {}

  lemma UnlockNotes(s: State, n: Name, code: int, err: bool)
    requires s.mu.Held? && Noted(s, n, code, err)
    ensures Noted(Unlock(s), n, code, err)
  {}

  lemma PartialNotes(s: State, n: Name, code: int, err: bool)
    requires Ids(s) && s.mu.Held? && s.mu.stage.Launched? && s.mu.stage.outcome.Unproven? && Noted(s, n, code, err)
    ensures Noted(PartialRecorded(s), n, code, err)
  {}

  lemma LaunchEndNotes(s: State, a: LaunchEndAction, s': State, n: Name, code: int, err: bool)
    requires Ids(s) && LaunchEndNext(s, a, s') && Noted(s, n, code, err)
    ensures Noted(s', n, code, err)
  {
    match a {
      case ALaunchRecordPartial => PartialNotes(s, n, code, err); UnlockNotes(PartialRecorded(s), n, code, err);
      case _ => UnlockNotes(s, n, code, err);
    }
  }

  lemma ExitNotes(s: State, a: ExitAction, s': State, n: Name, code: int, err: bool)
    requires ExitNext(s, a, s') && Noted(s, n, code, err)
    ensures Noted(s', n, code, err)
  {}

  lemma BeginNotes(s: State, c: Caller, s': State, n: Name, code: int, err: bool)
    requires FinishBegin(s, n, c, s') && CallStaged(ViewOf(s, n), c) && Noted(s, n, code, err)
    ensures Noted(s', n, code, err)
  {}

  lemma OtherStageNotes(s: State, a: TerminateAction, s': State, n: Name, code: int, err: bool)
    requires TerminateNext(s, a, s') && !(a.AFinishBegin? && a.n == n) && Noted(s, n, code, err)
    ensures Noted(s', n, code, err)
  {}

  lemma TerminateNotes(s: State, a: TerminateAction, s': State, n: Name, code: int, err: bool)
    requires Runners(s) && TerminateNext(s, a, s') && Noted(s, n, code, err)
    ensures Noted(s', n, code, err)
  {
    if a.AFinishBegin? && a.n == n {
      assert Sound(ViewOf(s, n));
      BeginNotes(s, a.c, s', n, code, err);
    } else {
      OtherStageNotes(s, a, s', n, code, err);
    }
  }

  lemma ReleaseNotes(s: State, a: ReleaseAction, s': State, n: Name, code: int, err: bool)
    requires ReleaseNext(s, a, s') && Noted(s, n, code, err)
    ensures Noted(s', n, code, err)
  {}

  lemma ShutdownNotes(s: State, a: ShutdownAction, s': State, n: Name, code: int, err: bool)
    requires ShutdownNext(s, a, s') && Noted(s, n, code, err)
    ensures Noted(s', n, code, err)
  {}

  lemma ReconcileNotes(s: State, a: ReconcileAction, s': State, n: Name, code: int, err: bool)
    requires ReconcileNext(s, a, s') && Noted(s, n, code, err)
    ensures Noted(s', n, code, err)
  {}

  lemma StepNotes(s: State, a: Action, s': State, n: Name, code: int, err: bool)
    requires Runners(s) && Ids(s) && Next(s, a, s') && Noted(s, n, code, err)
    ensures Noted(s', n, code, err)
  {
    match a {
      case OfListener(b) => ListenerNotes(s, b, s', n, code, err);
      case OfRetry(b) => RetryNotes(s, b, s', n, code, err);
      case OfLaunch(b) => LaunchNotes(s, b, s', n, code, err);
      case OfLaunchEnd(b) => LaunchEndNotes(s, b, s', n, code, err);
      case OfExit(b) => ExitNotes(s, b, s', n, code, err);
      case OfTerminate(b) => TerminateNotes(s, b, s', n, code, err);
      case OfRelease(b) => ReleaseNotes(s, b, s', n, code, err);
      case OfShutdown(b) => ShutdownNotes(s, b, s', n, code, err);
      case OfReconcile(b) => ReconcileNotes(s, b, s', n, code, err);
    }
  }

  lemma NotedAt(run: Run, max: int, k: nat, n: Name, code: int, err: bool)
    requires ValidRun(run, max) && k < |run.actions| && Noted(run.states[k], n, code, err)
    ensures Noted(run.states[k + 1], n, code, err)
  {
    assert Runners(run.states[k]) && Ids(run.states[k]) by { InvAt(run, max, k); }
    assert Next(run.states[k], run.actions[k], run.states[k + 1]);
    StepNotes(run.states[k], run.actions[k], run.states[k + 1], n, code, err);
  }

  lemma {:induction false} RunNotes(run: Run, max: int, i: nat, j: nat, n: Name, code: int, err: bool)
    requires ValidRun(run, max) && i <= j < |run.states| && Noted(run.states[i], n, code, err)
    ensures Noted(run.states[j], n, code, err)
    decreases j - i
  {
    if i < j {
      RunNotes(run, max, i, j - 1, n, code, err);
      NotedAt(run, max, j - 1, n, code, err);
    }
  }

  lemma WatcherNotesAt(run: Run, max: int, i: nat, n: Name, code: int, err: bool)
    requires ValidRun(run, max) && i < |run.actions| && run.actions[i] == OfTerminate(AFinishBegin(n, Watcher))
    requires Known(run.states[i], n) && run.states[i].runners[n].watch == WatchPc.Finishing(code, err)
    requires !err || !run.states[i].l.states[n].cleanupStarted
    ensures Noted(run.states[i + 1], n, code, err)
  {
    assert Runners(run.states[i]) by { InvAt(run, max, i); }
    assert Next(run.states[i], run.actions[i], run.states[i + 1]);
    WatcherNotes(run.states[i], n, code, err, run.states[i + 1]);
  }

  lemma WatcherNotes(s: State, n: Name, code: int, err: bool, s': State)
    requires Known(s, n) && Sound(ViewOf(s, n)) && FinishBegin(s, n, Watcher, s')
    requires s.runners[n].watch == WatchPc.Finishing(code, err) && (!err || !s.l.states[n].cleanupStarted)
    ensures Noted(s', n, code, err)
  {
    assert CallStaged(ViewOf(s, n), Watcher);
  }

  /**
   * The watcher's exit is the one kept for good: if its Wait had no error, or nobody had begun the
   * cleanup before it, no retry and no shutdown ever replaces the code and the error it noted.
   */
  lemma WatcherExitKept(run: Run, max: int, i: nat, j: nat, n: Name, code: int, err: bool)
    requires ValidRun(run, max) && i < j < |run.states|
    requires run.actions[i] == OfTerminate(AFinishBegin(n, Watcher)) && Known(run.states[i], n)
    requires run.states[i].runners[n].watch == WatchPc.Finishing(code, err)
    requires !err || !run.states[i].l.states[n].cleanupStarted
    ensures Known(run.states[j], n)
    ensures run.states[j].l.states[n].exitCode == code && run.states[j].l.states[n].waitErr == err
  {
    WatcherNotesAt(run, max, i, n, code, err);
    RunNotes(run, max, i + 1, j, n, code, err);
  }

  // ---------------------------------------------------------------- exits that demand does not count yet

  /** Statistics drop an exit only when they account for it, or when nothing is asked for. */
  predicate Accounts(s: State, a: Action, n: Name) {
    a.OfListener? && a.listener.ADesiredBegin? && (a.listener.count == 0 || n in s.l.completions)
  }

  /** The exit is subtracted from demand. */
  predicate Subtracted(s: State, n: Name, id: RunnerId) {
    n in s.l.pendingExits && s.l.pendingExits[n] == id && n in s.l.states && s.l.states[n].runnerID == id
  }

  lemma ListenerKeepsExit(s: State, a: ListenerAction, s': State, n: Name, id: RunnerId)
    requires ListenerNext(s, a, s') && Subtracted(s, n, id) && !Accounts(s, OfListener(a), n)
    ensures Subtracted(s', n, id)
  {}

  lemma RetryKeepsExit(s: State, a: RetryAction, s': State, n: Name, id: RunnerId)
    requires RetryNext(s, a, s') && Subtracted(s, n, id)
    ensures Subtracted(s', n, id)
  {}

  lemma LaunchKeepsExit(s: State, a: LaunchAction, s': State, n: Name, id: RunnerId)
    requires Ids(s) && LaunchNext(s, a, s') && Subtracted(s, n, id)
    ensures Subtracted(s', n, id)
  {}

  lemma LaunchEndKeepsExit(s: State, a: LaunchEndAction, s': State, n: Name, id: RunnerId)
    requires Ids(s) && LaunchEndNext(s, a, s') && Subtracted(s, n, id)
    ensures Subtracted(s', n, id)
  {}

  lemma ExitKeepsExit(s: State, a: ExitAction, s': State, n: Name, id: RunnerId)
    requires ExitNext(s, a, s') && Subtracted(s, n, id)
    ensures Subtracted(s', n, id)
  {}

  lemma TerminateKeepsExit(s: State, a: TerminateAction, s': State, n: Name, id: RunnerId)
    requires TerminateNext(s, a, s') && Subtracted(s, n, id)
    ensures Subtracted(s', n, id)
  {}

  lemma ReleaseKeepsExit(s: State, a: ReleaseAction, s': State, n: Name, id: RunnerId)
    requires ReleaseNext(s, a, s') && Subtracted(s, n, id)
    ensures Subtracted(s', n, id)
  {}

  lemma ShutdownKeepsExit(s: State, a: ShutdownAction, s': State, n: Name, id: RunnerId)
    requires ShutdownNext(s, a, s') && Subtracted(s, n, id)
    ensures Subtracted(s', n, id)
  {}

  lemma ReconcileKeepsExit(s: State, a: ReconcileAction, s': State, n: Name, id: RunnerId)
    requires ReconcileNext(s, a, s') && Subtracted(s, n, id)
    ensures Subtracted(s', n, id)
  {}

  lemma StepKeepsExit(s: State, a: Action, s': State, n: Name, id: RunnerId)
    requires Ids(s) && Next(s, a, s') && Subtracted(s, n, id) && !Accounts(s, a, n)
    ensures Subtracted(s', n, id)
  {
    match a {
      case OfListener(b) => ListenerKeepsExit(s, b, s', n, id);
      case OfRetry(b) => RetryKeepsExit(s, b, s', n, id);
      case OfLaunch(b) => LaunchKeepsExit(s, b, s', n, id);
      case OfLaunchEnd(b) => LaunchEndKeepsExit(s, b, s', n, id);
      case OfExit(b) => ExitKeepsExit(s, b, s', n, id);
      case OfTerminate(b) => TerminateKeepsExit(s, b, s', n, id);
      case OfRelease(b) => ReleaseKeepsExit(s, b, s', n, id);
      case OfShutdown(b) => ShutdownKeepsExit(s, b, s', n, id);
      case OfReconcile(b) => ReconcileKeepsExit(s, b, s', n, id);
    }
  }

  lemma KeepsExitAt(run: Run, max: int, k: nat, n: Name, id: RunnerId)
    requires ValidRun(run, max) && k < |run.actions| && Subtracted(run.states[k], n, id)
    requires !Accounts(run.states[k], run.actions[k], n)
    ensures Subtracted(run.states[k + 1], n, id)
  {
    assert Ids(run.states[k]) by { InvAt(run, max, k); }
    assert Next(run.states[k], run.actions[k], run.states[k + 1]);
    StepKeepsExit(run.states[k], run.actions[k], run.states[k + 1], n, id);
  }

  lemma {:induction false} RunKeepsExit(run: Run, max: int, i: nat, j: nat, n: Name, id: RunnerId)
    requires ValidRun(run, max) && i <= j < |run.states| && Subtracted(run.states[i], n, id)
    requires forall k {:trigger run.actions[k]} | i <= k < j :: !Accounts(run.states[k], run.actions[k], n)
    ensures Subtracted(run.states[j], n, id)
    decreases j - i
  {
    if i < j {
      RunKeepsExit(run, max, i, j - 1, n, id);
      KeepsExitAt(run, max, j - 1, n, id);
    }
  }

  lemma RecordSubtracts(s: State, n: Name, s': State)
    requires RecordCleanExit(s, n, s')
    ensures s'.l.desired == s.l.desired && s'.l.states == s.l.states
    ensures s'.l.pendingExits == if !s.l.states[n].completionAccounted && s.l.desired > 0
                                 then s.l.pendingExits[n := s.l.states[n].runnerID] else s.l.pendingExits
  {}

  /**
   * A recorded clean exit that is not accounted for stays subtracted from demand until statistics
   * account for it or ask for nothing; any launch before that serves some other job.
   */
  lemma CleanExitStaysSubtracted(run: Run, max: int, i: nat, j: nat, n: Name)
    requires ValidRun(run, max) && i < j < |run.states| && run.actions[i] == OfExit(ARecordCleanExit(n))
    requires Known(run.states[i], n)
    requires !run.states[i].l.states[n].completionAccounted && run.states[i].l.desired > 0
    requires forall k {:trigger run.actions[k]} | i < k < j ::
               run.actions[k].OfListener? && run.actions[k].listener.ADesiredBegin? ==>
                 run.actions[k].listener.count != 0 && n !in run.states[k].l.completions
    ensures n in run.states[j].l.pendingExits
    ensures run.states[j].l.pendingExits[n] == run.states[i].l.states[n].runnerID
    ensures j < |run.actions| && run.actions[j] == OfLaunch(ALaunchBegin) ==>
              |Occupying(run.states[j].l)| + 1 < run.states[j].l.desired
  {
    assert Next(run.states[i], run.actions[i], run.states[i + 1]);
    RecordSubtracts(run.states[i], n, run.states[i + 1]);
    RunKeepsExit(run, max, i + 1, j, n, run.states[i].l.states[n].runnerID);
    if j < |run.actions| && run.actions[j] == OfLaunch(ALaunchBegin) {
      LaunchHasRoom(run, max, j);
      assert |run.states[j].l.pendingExits| > 0;
    }
  }

  /** An exit that failed, was accounted for, or came when nothing is asked for is not subtracted by its record. */
  lemma OtherExitsNotSubtracted(run: Run, max: int, i: nat, n: Name)
    requires ValidRun(run, max) && i < |run.actions| && Known(run.states[i], n)
    requires run.actions[i] == OfExit(ARecordFailedExit(n)) ||
             (run.actions[i] == OfExit(ARecordCleanExit(n)) &&
              (run.states[i].l.states[n].completionAccounted || run.states[i].l.desired <= 0))
    ensures run.states[i + 1].l.pendingExits == run.states[i].l.pendingExits
  {
    assert Next(run.states[i], run.actions[i], run.states[i + 1]);
  }

  /** Only a runner that ended with code 0 is replaced, and its refill starts what demand and the cap leave room for. */
  lemma RefillTakesRoom(run: Run, max: int, i: nat, n: Name)
    requires ValidRun(run, max) && i < |run.actions| && run.actions[i] == OfExit(ARefill(n))
    ensures var s, s' := run.states[i], run.states[i + 1];
      && n in s.runners && s.runners[n].watch == WatchPc.Refilling(0, false) && s'.l == s.l
      && s'.mu.Held? && s'.mu.lockedBy == ForRefill(n) && s'.mu.stage == LoopHead
      && var have, net, cap := |Occupying(s.l)|, s.l.desired - |s.l.pendingExits|, s.l.maxRunners;
      s'.mu.left == if net <= have || (cap > 0 && cap <= have) then 0
                    else if cap > 0 && cap < net then cap - have else net - have
  {
    assert Runners(run.states[i]) by { InvAt(run, max, i); }
    assert Next(run.states[i], run.actions[i], run.states[i + 1]);
    assert Sound(ViewOf(run.states[i], n));
  }

  /** Statistics account for the completed runners, drop their exits, and drop all exits when nothing is asked for. */
  lemma StatisticsAccount(run: Run, max: int, i: nat, count: int, n: Name)
    requires ValidRun(run, max) && i < |run.actions| && run.actions[i] == OfListener(ADesiredBegin(count))
    ensures var l, l' := run.states[i].l, run.states[i + 1].l;
      && l'.desired == count && l'.completions == {} && !l.stopped
      && (n in l'.pendingExits <==> n in l.pendingExits && count != 0 && n !in l.completions)
      && (n in l.running && n in l.completions && n in l.states ==> l'.states[n].completionAccounted)
      && (n in l.states && (n !in l.running || n !in l.completions) ==> l'.states[n] == l.states[n])
  {
    assert Next(run.states[i], run.actions[i], run.states[i + 1]);
  }
}
