/** Every runner stays sound through every step, whatever the other goroutines do. */
module LauncherRunners {
  import opened Common
  import opened LauncherState
  import opened LauncherProtocol
  import opened LauncherInvariants

  // ---------------------------------------------------------------- one cleanup step, seen by its runner

  lemma AlreadySound(s: State, n: Name, c: Caller, s': State)
    requires FinishAlready(s, n, c, s') && Known(s', n) && Sound(ViewOf(s, n))
    ensures Sound(ViewOf(s', n))
  {}

  lemma EnterSound(s: State, n: Name, c: Caller, s': State)
    requires FinishEnter(s, n, c, s') && Known(s', n) && Sound(ViewOf(s, n))
    ensures Sound(ViewOf(s', n))
  {}

  lemma BeginSound(s: State, n: Name, c: Caller, s': State)
    requires FinishBegin(s, n, c, s') && Known(s', n) && Sound(ViewOf(s, n))
    ensures Sound(ViewOf(s', n))
  {
    BegunSound(ViewOf(s, n), c, ViewOf(s', n));
  }

  lemma BegunSound(v: View, c: Caller, v': View)
    requires Sound(v) && c in v.r.calls && v.r.calls[c].pc.Entered?
    requires var f := v.r.calls[c];
      v' == v.(r := Goto(v.r, c, AfterBegin(v.st, f)), st := StartCleanup(v.st, f.code, f.waitErr, f.terminate))
    ensures Sound(v')
  {
    assert CallStaged(v, c);
    forall d | d in v'.r.calls ensures CallStaged(v', d) { assert CallStaged(v, d); }
  }

  lemma KillSound(s: State, n: Name, c: Caller, s': State)
    requires FinishKill(s, n, c, s') && Known(s', n) && Sound(ViewOf(s, n))
    ensures Sound(ViewOf(s', n))
  {}

  lemma KillErrorSound(s: State, n: Name, c: Caller, dead: bool, s': State)
    requires FinishKillError(s, n, c, dead, s') && Known(s', n) && Sound(ViewOf(s, n))
    ensures Sound(ViewOf(s', n))
  {}

  lemma ConfirmSound(s: State, n: Name, c: Caller, s': State)
    requires FinishConfirm(s, n, c, s') && Known(s', n) && Sound(ViewOf(s, n))
    ensures Sound(ViewOf(s', n))
  {}

  lemma ReportSound(s: State, n: Name, c: Caller, s': State)
    requires FinishReport(s, n, c, s') && Known(s', n) && Sound(ViewOf(s, n))
    ensures Sound(ViewOf(s', n))
  {}

  lemma KeepRegistrationSound(s: State, n: Name, c: Caller, s': State)
    requires FinishKeepRegistration(s, n, c, s') && Known(s', n) && Sound(ViewOf(s, n))
    ensures Sound(ViewOf(s', n))
  {}

  lemma DeregisterSound(s: State, n: Name, c: Caller, s': State)
    requires FinishDeregister(s, n, c, s') && Known(s', n) && Sound(ViewOf(s, n))
    ensures Sound(ViewOf(s', n))
  {}

  lemma DeregisterErrorSound(s: State, n: Name, c: Caller, gone: bool, s': State)
    requires FinishDeregisterError(s, n, c, gone, s') && Known(s', n) && Sound(ViewOf(s, n))
    ensures Sound(ViewOf(s', n))
  {}

  lemma RemoveSound(s: State, n: Name, c: Caller, s': State)
    requires FinishRemove(s, n, c, s') && Known(s', n) && Sound(ViewOf(s, n))
    ensures Sound(ViewOf(s', n))
  {}

  lemma RemoveErrorSound(s: State, n: Name, c: Caller, gone: bool, s': State)
    requires FinishRemoveError(s, n, c, gone, s') && Known(s', n) && Sound(ViewOf(s, n))
    ensures Sound(ViewOf(s', n))
  {}

  lemma DeleteSound(s: State, n: Name, c: Caller, s': State)
    requires FinishDelete(s, n, c, s') && Known(s', n) && Sound(ViewOf(s, n))
    ensures Sound(ViewOf(s', n))
  {}

  lemma FinishOthers(s: State, n: Name, s': State)
    requires Runners(s) && Attempts(s) && FinishFrame(s, n, s') && Sound(ViewOf(s', n))
    ensures Runners(s')
  {
    forall m | Known(s', m) ensures Sound(ViewOf(s', m)) {
      if m != n { SoundDisturbed(ViewOf(s, m), ViewOf(s', m)); }
    }
  }

  lemma TerminateKeepsRunners(s: State, a: TerminateAction, s': State)
    requires Runners(s) && Attempts(s) && TerminateNext(s, a, s')
    ensures Runners(s')
  {
    TerminateFrame(s, a, s');
    match a {
      case AFinishAlready(n, c) => AlreadySound(s, n, c, s');
      case AFinishEnter(n, c) => EnterSound(s, n, c, s');
      case AFinishBegin(n, c) => BeginSound(s, n, c, s');
      case AFinishKill(n, c) => KillSound(s, n, c, s');
      case AFinishKillError(n, c, dead) => KillErrorSound(s, n, c, dead, s');
      case AFinishConfirm(n, c) => ConfirmSound(s, n, c, s');
      case AFinishReport(n, c) => ReportSound(s, n, c, s');
    }
    FinishOthers(s, a.n, s');
  }

  lemma ReleaseKeepsRunners(s: State, a: ReleaseAction, s': State)
    requires Runners(s) && Attempts(s) && ReleaseNext(s, a, s')
    ensures Runners(s')
  {
    ReleaseFrame(s, a, s');
    match a {
      case AFinishKeepRegistration(n, c) => KeepRegistrationSound(s, n, c, s');
      case AFinishDeregister(n, c) => DeregisterSound(s, n, c, s');
      case AFinishDeregisterError(n, c, gone) => DeregisterErrorSound(s, n, c, gone, s');
      case AFinishRemove(n, c) => RemoveSound(s, n, c, s');
      case AFinishRemoveError(n, c, gone) => RemoveErrorSound(s, n, c, gone, s');
      case AFinishDelete(n, c) => DeleteSound(s, n, c, s');
    }
    FinishOthers(s, a.n, s');
  }

  // ---------------------------------------------------------------- the other goroutines

  ghost predicate Quiet(s: State, s': State) {
    && s'.runners.Keys == s.runners.Keys && s'.l.states.Keys == s.l.states.Keys && s'.l.running == s.l.running
    && s'.l.completions <= s.l.completions + s.l.running + s.l.pendingExits.Keys
    && s'.l.pendingExits.Keys <= s.l.pendingExits.Keys
    && (forall n | Known(s, n) :: Known(s', n) && Disturbed(ViewOf(s, n), ViewOf(s', n)))
  }

  lemma QuietKeepsRunners(s: State, s': State)
    requires Runners(s) && Quiet(s, s')
    ensures Runners(s')
  {
    forall n | Known(s', n) ensures Sound(ViewOf(s', n)) { SoundDisturbed(ViewOf(s, n), ViewOf(s', n)); }
  }

  /** No runner changes, nor do the names the launcher keeps. */
  lemma SameRunnersQuiet(s: State, s': State)
    requires s'.runners == s.runners && s'.l.states == s.l.states && s'.l.running == s.l.running
    requires s'.l.completions == s.l.completions && s'.l.pendingExits == s.l.pendingExits
    requires s.removed <= s'.removed && (s.l.stopped ==> s'.l.stopped)
    requires forall n | n in s.runners :: StopsOf(s', n) == StopsOf(s, n)
    ensures Quiet(s, s')
  {}

  function StopsOf(s: State, n: Name): nat
    requires n in s.runners
  {
    if s.runners[n].attempt in s.stops then s.stops[s.runners[n].attempt] else 0
  }

  lemma StartedQuiet(s: State, job: Job, hit: Option<Name>, s': State)
    requires JobStarted(s, job, hit, s')
    ensures Quiet(s, s')
  {
    forall n | Known(s, n) ensures Known(s', n) && Disturbed(ViewOf(s, n), ViewOf(s', n)) { BusyDisturbs(s, hit, n); }
  }

  lemma BusyDisturbs(s: State, hit: Option<Name>, n: Name)
    requires Known(s, n)
    ensures var s' := s.(l := MarkBusy(s.l, hit)); Known(s', n) && Disturbed(ViewOf(s, n), ViewOf(s', n))
  {}

  lemma CompletedQuiet(s: State, job: Job, hit: Option<Name>, s': State)
    requires JobCompleted(s, job, hit, s')
    ensures Quiet(s, s')
  {}

  lemma RetryQuiet(s: State, a: RetryAction, s': State)
    requires RetryNext(s, a, s') && !a.ADesiredStartCleanup? && !a.ADesiredEndCleanup?
    ensures Quiet(s, s')
  {
    SameRunnersQuiet(s, s');
  }

  lemma ExitQuiet(s: State, a: ExitAction, s': State)
    requires ExitNext(s, a, s') && (a.AInstanceExit? || a.ARefill?)
    ensures Quiet(s, s')
  {}

  lemma ShutdownQuiet(s: State, a: ShutdownAction, s': State)
    requires ShutdownNext(s, a, s') && !a.AShutdownBegin?
    ensures Quiet(s, s')
  {
    SameRunnersQuiet(s, s');
  }

  lemma ReconcileQuiet(s: State, a: ReconcileAction, s': State)
    requires ReconcileNext(s, a, s')
    ensures Quiet(s, s')
  {
    if a.AReconcileRemove? { ForgottenQuiet(s, a.k, a.gone, s'); } else { SameRunnersQuiet(s, s'); }
  }

  lemma ForgottenQuiet(s: State, k: nat, gone: bool, s': State)
    requires ReconcileRemove(s, k, gone, s')
    ensures Quiet(s, s')
  {}

  lemma LaunchQuiet(s: State, a: LaunchAction, s': State)
    requires Attempts(s) && LaunchNext(s, a, s') && !a.ALaunchRecord?
    ensures Quiet(s, s')
  {
    SameRunnersQuiet(s, s');
  }

  lemma StatisticsSound(s: State, count: int, n: Name, s': State)
    requires Runners(s) && DesiredBegin(s, count, s') && Known(s, n)
    ensures Known(s', n) && Sound(ViewOf(s', n))
  {
    var v, v' := ViewOf(s, n), ViewOf(s', n);
    assert Sound(v);
    assert v'.r == v.r.(accounted := v'.r.accounted);
    assert v'.st == v.st.(completionAccounted := v'.st.completionAccounted);
    forall c | c in v'.r.calls ensures CallStaged(v', c) { assert CallStaged(v, c); }
  }

  lemma ListenerKeepsRunners(s: State, a: ListenerAction, s': State)
    requires Runners(s) && ListenerNext(s, a, s')
    ensures Runners(s')
  {
    match a {
      case ADesiredBegin(count) => StatisticsKeepsRunners(s, count, s');
      case AJobStarted(job, hit) => StartedQuiet(s, job, hit, s'); QuietKeepsRunners(s, s');
      case AJobCompleted(job, hit) => CompletedQuiet(s, job, hit, s'); QuietKeepsRunners(s, s');
      case ADesiredRefused =>
      case ADesiredTooLate => SameRunnersQuiet(s, s'); QuietKeepsRunners(s, s');
      case ADesiredLock => SameRunnersQuiet(s, s'); QuietKeepsRunners(s, s');
    }
  }

  lemma StatisticsKeepsRunners(s: State, count: int, s': State)
    requires Runners(s) && DesiredBegin(s, count, s')
    ensures Runners(s')
  {
    forall n | Known(s', n) ensures Sound(ViewOf(s', n)) { StatisticsSound(s, count, n, s'); }
  }

  /** A goroutine without a call in progress may start one. */
  lemma AddCallSound(v: View, c: Caller, code: int, waitErr: bool, v': View)
    requires Sound(v) && c !in v.r.calls && v' == v.(r := AddCall(v.r, c, code, waitErr, true), stopped := v'.stopped)
    requires v.stopped ==> v'.stopped
    requires c == Listener ==> v.st.cleanupStarted
    requires c != Watcher && c != PartialLaunch && (c.Shutdown? ==> v'.stopped)
    ensures Sound(v')
  {
    forall d | d in v'.r.calls ensures CallStaged(v', d) { assert d in v.r.calls ==> CallStaged(v, d); }
  }

  lemma DropCallSound(v: View, c: Caller, w: WatchPc, v': View)
    requires Sound(v) && c in v.r.calls && v.r.calls[c].pc.Returned?
    requires v' == v.(r := DropCall(v.r, c).(watch := w))
    requires w == v.r.watch ||
             (c == Watcher && v.r.watch.Finishing? && PastRecord(w) && (EndedItself(w) <==> EndedItself(v.r.watch))
              && (w.Refilling? ==> w.code == 0 && !w.err))
    ensures Sound(v')
  {
    assert CallStaged(v, c);
    forall d | d in v'.r.calls ensures CallStaged(v', d) { assert CallStaged(v, d); }
  }

  /** One runner changes, in its own part of the state only. */
  lemma OneKeepsRunners(s: State, n: Name, s': State)
    requires Runners(s) && Known(s, n)
    requires s'.runners.Keys == s.runners.Keys && s'.runners == s.runners[n := s'.runners[n]]
    requires s'.l.states == s.l.states && s'.l.running == s.l.running && s'.l.completions == s.l.completions
    requires s'.l.pendingExits == s.l.pendingExits || s'.l.pendingExits == s.l.pendingExits[n := s.l.states[n].runnerID]
    requires s'.l.stopped == s.l.stopped && s'.removed == s.removed && s'.stops == s.stops
    requires Sound(ViewOf(s', n))
    ensures Runners(s')
  {
    forall m | Known(s', m) ensures Sound(ViewOf(s', m)) {
      if m != n { assert ViewOf(s', m) == ViewOf(s, m); }
    }
  }

  lemma RetryKeepsRunners(s: State, a: RetryAction, s': State)
    requires Runners(s) && Callers(s) && RetryNext(s, a, s')
    ensures Runners(s')
  {
    match a {
      case ADesiredStartCleanup(n) => ListenerStartKeepsRunners(s, n, s');
      case ADesiredEndCleanup(cancelled) => ListenerEndKeepsRunners(s, cancelled, s');
      case _ => RetryQuiet(s, a, s'); QuietKeepsRunners(s, s');
    }
  }

  lemma ListenerStartKeepsRunners(s: State, n: Name, s': State)
    requires Runners(s) && Callers(s) && DesiredStartCleanup(s, n, s')
    ensures Runners(s')
  {
    var st := s.l.states[n];
    AddCallSound(ViewOf(s, n), Listener, st.exitCode, st.waitErr, ViewOf(s', n));
    OneKeepsRunners(s, n, s');
  }

  lemma ListenerEndKeepsRunners(s: State, cancelled: bool, s': State)
    requires Runners(s) && DesiredEndCleanup(s, cancelled, s')
    ensures Runners(s')
  {
    var n := s.listener.name;
    DropCallSound(ViewOf(s, n), Listener, s.runners[n].watch, ViewOf(s', n));
    OneKeepsRunners(s, n, s');
  }

  lemma ExitedSound(v: View, v': View)
    requires Sound(v) && v' == v.(r := v.r.(watch := v'.r.watch, inserted := v'.r.inserted), pending := v'.pending)
    requires v.r.watch.Blocked? || v.r.watch.Exited?
    requires v.r.watch.Blocked? ==> v'.r.watch.Exited? && (!v'.r.watch.err ==> !v.r.alive)
    requires v.r.watch.Blocked? ==> v'.r.inserted == v.r.inserted && v'.pending == v.pending
    requires v.r.watch.Exited? ==> v'.r.watch == WatchPc.Recorded(v.r.watch.code, v.r.watch.err)
    requires (v.r.inserted ==> v'.r.inserted) && (v'.pending ==> v'.r.inserted)
    requires v'.pending ==> v.pending || !v.st.completionAccounted
    ensures Sound(v')
  {
    forall d | d in v'.r.calls ensures CallStaged(v', d) { assert CallStaged(v, d); }
  }

  lemma WatcherCallSound(v: View, v': View)
    requires Sound(v) && v.r.watch.Recorded?
    requires v' == v.(r := AddCall(v.r, Watcher, v.r.watch.code, v.r.watch.err, v.r.watch.err).(
                             watch := WatchPc.Finishing(v.r.watch.code, v.r.watch.err)))
    ensures Sound(v')
  {
    assert Watcher in v.r.calls ==> CallStaged(v, Watcher);
    forall d | d in v'.r.calls ensures CallStaged(v', d) { assert d in v.r.calls ==> CallStaged(v, d); }
  }

  lemma EndWatchSound(v: View, v': View)
    requires Sound(v) && v.r.watch.Refilling? && v' == v.(r := EndWatch(v.r))
    ensures Sound(v')
  {
    forall d | d in v'.r.calls ensures CallStaged(v', d) { assert CallStaged(v, d); }
  }

  lemma ExitedKeepsRunners(s: State, a: ExitAction, s': State)
    requires Runners(s) && ExitNext(s, a, s') && (a.AWaitReturns? || a.ARecordCleanExit? || a.ARecordFailedExit?)
    ensures Runners(s')
  {
    ExitedSound(ViewOf(s, a.n), ViewOf(s', a.n));
    OneKeepsRunners(s, a.n, s');
  }

  lemma ExitKeepsRunners(s: State, a: ExitAction, s': State)
    requires Runners(s) && ExitNext(s, a, s')
    ensures Runners(s')
  {
    match a {
      case AInstanceExit(_) => ExitQuiet(s, a, s'); QuietKeepsRunners(s, s');
      case ARefill(_) => ExitQuiet(s, a, s'); QuietKeepsRunners(s, s');
      case AWatcherStartsCleanup(n) => WatcherStartKeepsRunners(s, n, s');
      case AWatcherEndsCleanup(n) => WatcherEndKeepsRunners(s, n, s');
      case ARefillSkipped(n, cancelled) => SkipKeepsRunners(s, n, cancelled, s');
      case _ => ExitedKeepsRunners(s, a, s');
    }
  }

  lemma WatcherStartKeepsRunners(s: State, n: Name, s': State)
    requires Runners(s) && WatcherStartsCleanup(s, n, s')
    ensures Runners(s')
  {
    WatcherCallSound(ViewOf(s, n), ViewOf(s', n));
    OneKeepsRunners(s, n, s');
  }

  lemma WatcherEndKeepsRunners(s: State, n: Name, s': State)
    requires Runners(s) && WatcherEndsCleanup(s, n, s')
    ensures Runners(s')
  {
    DropCallSound(ViewOf(s, n), Watcher, s'.runners[n].watch, ViewOf(s', n));
    OneKeepsRunners(s, n, s');
  }

  lemma SkipKeepsRunners(s: State, n: Name, cancelled: bool, s': State)
    requires Runners(s) && RefillSkipped(s, n, cancelled, s')
    ensures Runners(s')
  {
    EndWatchSound(ViewOf(s, n), ViewOf(s', n));
    OneKeepsRunners(s, n, s');
  }

  lemma ShutdownKeepsRunners(s: State, a: ShutdownAction, s': State)
    requires Runners(s) && Callers(s) && ShutdownNext(s, a, s')
    ensures Runners(s')
  {
    match a {
      case AShutdownBegin(k) =>
        forall n | Known(s', n) ensures Sound(ViewOf(s', n)) {
          if n in s.l.running {
            AddCallSound(ViewOf(s, n), Shutdown(k), -1, false, ViewOf(s', n));
          } else {
            SoundDisturbed(ViewOf(s, n), ViewOf(s', n));
          }
        }
      case _ => ShutdownQuiet(s, a, s'); QuietKeepsRunners(s, s');
    }
  }

  lemma ReconcileKeepsRunners(s: State, a: ReconcileAction, s': State)
    requires Runners(s) && ReconcileNext(s, a, s')
    ensures Runners(s')
  {
    ReconcileQuiet(s, a, s');
    QuietKeepsRunners(s, s');
  }

  /** A recorded launch adds a sound runner beside the others. */
  lemma AddedKeepsRunners(s: State, n: Name, s': State)
    requires Runners(s) && n !in s.l.states && Known(s', n) && Sound(ViewOf(s', n))
    requires s'.runners.Keys == s.runners.Keys + {n} && s'.l.states.Keys == s.l.states.Keys + {n}
    requires s'.l.running == s.l.running + {n}
    requires s'.l.completions == s.l.completions && s'.l.pendingExits == s.l.pendingExits
    requires forall m | Known(s, m) :: Known(s', m) && ViewOf(s', m) == ViewOf(s, m)
    ensures Runners(s')
  {
    forall m | Known(s', m) ensures Sound(ViewOf(s', m)) {
      if m != n { assert Known(s, m); }
    }
  }

  /** The exit of the goroutine that refilled. */
  lemma EndRefillKeepsRunners(s: State, s': State)
    requires Runners(s) && s.mu.Held? && s' == Unlock(s)
    ensures Runners(s')
  {
    var holder := s.mu.lockedBy;
    if holder.ForRefill? && holder.exited in s.runners && s.runners[holder.exited].watch.Refilling? {
      var n := holder.exited;
      EndWatchSound(ViewOf(s, n), ViewOf(s', n));
      OneKeepsRunners(s, n, s');
    } else {
      assert Quiet(s, s');
      QuietKeepsRunners(s, s');
    }
  }

  /** The stop of a failed launch is nobody else's. */
  lemma LaunchStopKeepsRunners(s: State, s': State)
    requires Runners(s) && Attempts(s) && MidLaunch(s.mu) && s.removed <= s'.removed
    requires s' == s.(stops := CountStop(s.stops, s.l.seqNo), removed := s'.removed,
                      l := s.l.(pendingRegistrations := s'.l.pendingRegistrations))
    ensures Runners(s')
  {
    assert Quiet(s, s');
    QuietKeepsRunners(s, s');
  }

  lemma LaunchKeepsRunners(s: State, a: LaunchAction, s': State)
    requires Runners(s) && Ids(s) && Attempts(s) && StopsOfLaunch(s) && LaunchNext(s, a, s')
    ensures Runners(s')
  {
    match a {
      case ALaunchRecord =>
        RecordSound(s, s');
        forall m | Known(s, m) ensures Known(s', m) && ViewOf(s', m) == ViewOf(s, m) { RecordOthers(s, m, s'); }
        AddedKeepsRunners(s, s.mu.stage.name, s');
      case _ => LaunchQuiet(s, a, s'); QuietKeepsRunners(s, s');
    }
  }

  /** The launch in progress has not stopped yet. */
  predicate StopsOfLaunch(s: State) {
    MidLaunch(s.mu) ==> s.l.seqNo in s.stops && s.stops[s.l.seqNo] == 0
  }

  lemma RecordSound(s: State, s': State)
    requires Ids(s) && Attempts(s) && StopsOfLaunch(s) && LaunchRecord(s, s')
    requires s.l.completions <= s.l.states.Keys && s.l.pendingExits.Keys <= s.l.states.Keys
    ensures Known(s', s.mu.stage.name) && Sound(ViewOf(s', s.mu.stage.name))
  {}

  lemma RecordOthers(s: State, m: Name, s': State)
    requires LaunchRecord(s, s') && Known(s, m) && s.mu.stage.name !in s.l.states
    ensures Known(s', m) && ViewOf(s', m) == ViewOf(s, m)
  {}

  lemma PartialSound(s: State)
    requires Ids(s) && StopsOfLaunch(s)
    requires s.l.completions <= s.l.states.Keys && s.l.pendingExits.Keys <= s.l.states.Keys
    requires s.mu.Held? && s.mu.stage.Launched? && s.mu.stage.outcome.Unproven?
    ensures Known(PartialRecorded(s), s.mu.stage.name) && Sound(ViewOf(PartialRecorded(s), s.mu.stage.name))
  {}

  lemma PartialOthers(s: State, m: Name)
    requires Attempts(s) && s.mu.Held? && s.mu.stage.Launched? && s.mu.stage.outcome.Unproven?
    requires Known(s, m) && s.mu.stage.name !in s.l.states
    ensures Known(PartialRecorded(s), m) && ViewOf(PartialRecorded(s), m) == ViewOf(s, m)
  {}

  lemma PartialKeepsRunners(s: State)
    requires Runners(s) && Ids(s) && Attempts(s) && StopsOfLaunch(s)
    requires s.mu.Held? && s.mu.stage.Launched? && s.mu.stage.outcome.Unproven?
    ensures Runners(PartialRecorded(s))
  {
    var t := PartialRecorded(s);
    PartialSound(s);
    forall m | Known(s, m) ensures Known(t, m) && ViewOf(t, m) == ViewOf(s, m) { PartialOthers(s, m); }
    AddedKeepsRunners(s, s.mu.stage.name, t);
  }

  lemma LaunchEndKeepsRunners(s: State, a: LaunchEndAction, s': State)
    requires Runners(s) && Ids(s) && Attempts(s) && StopsOfLaunch(s) && LaunchEndNext(s, a, s')
    ensures Runners(s')
  {
    match a {
      case ALaunchUnlock => EndRefillKeepsRunners(s, s');
      case ALaunchRecordPartial => PartialKeepsRunners(s); EndRefillKeepsRunners(PartialRecorded(s), s');
      case ALaunchFail =>
        var t := s.(stops := CountStop(s.stops, s.l.seqNo));
        LaunchStopKeepsRunners(s, t);
        EndRefillKeepsRunners(t, s');
      case ALaunchUnregister =>
        var t := Removed(s, s.mu.stage.id, true).(stops := CountStop(s.stops, s.l.seqNo));
        LaunchStopKeepsRunners(s, t);
        EndRefillKeepsRunners(t, s');
      case ALaunchUnregisterError(gone) =>
        var g := s.mu.stage;
        var t := Removed(s, g.id, gone).(
                   l := AddPendingRegistration(s.l, g.id, g.name), stops := CountStop(s.stops, s.l.seqNo));
        LaunchStopKeepsRunners(s, t);
        EndRefillKeepsRunners(t, s');
    }
  }
}
