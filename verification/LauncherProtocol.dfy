/**
 * The launcher as a labelled transition system. Every action is one `l.mu` critical section or one
 * external call; the listener, one exit watcher per runner, partial-launch cleanups, shutdowns and
 * reconciliations interleave freely.
 */
module LauncherProtocol {
  import opened Common
  import opened LauncherState

  /** A goroutine that may run a cleanup. */
  datatype Caller = Listener | Watcher | PartialLaunch | Shutdown(k: nat)

  datatype FinishPc =
    | Waiting          // for the runner's cleanup mutex
    | Entered          // holds the mutex, runner not yet cleaned
    | Killing
    | Confirming
    | Reporting
    | Deregistering
    | Removing
    | Deleting
    | Returned(ok: bool)

  /** One `finishRunner` invocation. */
  datatype Finish = Finish(code: int, waitErr: bool, terminate: bool, pc: FinishPc)

  predicate HoldsCleanup(pc: FinishPc) {
    !pc.Waiting? && !pc.Returned?
  }

  /** The goroutine that waits for a runner; a partial launch has none. */
  datatype WatchPc =
    | Unwatched
    | Blocked
    | Exited(code: int, err: bool)
    | Recorded(code: int, err: bool)
    | Finishing(code: int, err: bool)
    | Refilling(code: int, err: bool)
    | Finished(code: int, err: bool)

  predicate PastRecord(w: WatchPc) { !w.Unwatched? && !w.Blocked? && !w.Exited? }

  /** Wait returned without an error, so the process ended by itself. */
  predicate EndedItself(w: WatchPc) { !w.Unwatched? && !w.Blocked? && !w.err }

  /** Everything about one runner besides the launcher's own `RunnerState`. */
  datatype Runner = Runner(
    attempt: nat,                 // the launch that created it
    resource: ResourceId,
    partial: bool,                // that launch returned an error
    alive: bool,                  // its instance is running
    watch: WatchPc,
    holder: Option<Caller>,       // of the runner's cleanup mutex
    calls: map<Caller, Finish>,
    inserted: bool,               // history: its exit was subtracted from demand
    accounted: bool)              // history: the broker's statistics accounted for its exit

  datatype LaunchBy = ForDemand(count: int) | ForRefill(exited: Name)

  datatype Outcome = Started(handle: ResourceId) | Unproven(handle: ResourceId) | Absent

  datatype Stage =
    | LoopHead
    | Begun
    | Issued(name: Name, id: RunnerId)
    | Launched(name: Name, id: RunnerId, resource: ResourceId, outcome: Outcome, alive: bool)

  /** `l.mu`: only the launch loops hold it across external calls. `left` counts the launch in progress. */
  datatype Mu = Free | Held(lockedBy: LaunchBy, left: nat, stage: Stage)

  datatype ListenerPc =
    | Idle
    | CopyRegistrations(count: int)
    | RemoveRegistrations(count: int, todo: set<RunnerId>, failed: bool)
    | DropRegistration(count: int, todo: set<RunnerId>, failed: bool, id: RunnerId)
    | CopyCleanups(count: int)
    | Clean(count: int, names: set<Name>, failed: bool)
    | CleanOne(count: int, names: set<Name>, failed: bool, name: Name)
    | Decide(count: int)
    | Launching(count: int)

  datatype ShutdownPc =
    | Joining(names: set<Name>)
    | CopyAll(failed: bool)
    | RemoveAll(failed: bool, todo: set<RunnerId>)
    | DropOne(failed: bool, todo: set<RunnerId>, id: RunnerId)
    | ShutdownReturned(ok: bool)

  datatype Owned = Owned(resource: ResourceId, id: RunnerId)

  datatype ReconcilePc =
    | Listed(owned: set<Owned>)
    | Working(todo: set<Owned>)
    | Deregistered(todo: set<Owned>, current: Owned)

  datatype State = State(
    l: LauncherState,
    runners: map<Name, Runner>,
    mu: Mu,
    listener: ListenerPc,
    shutdowns: map<nat, ShutdownPc>,
    reconciles: map<nat, ReconcilePc>,
    issued: set<RunnerId>,              // every id GitHub ever issued, to anyone
    ours: set<RunnerId>,                // ids issued to this launcher
    removed: set<RunnerId>,             // ids removed on GitHub by a call of this launcher
    records: map<ResourceId, RunnerId>, // owned records the backend can list now
    known: map<ResourceId, RunnerId>,   // every resource id ever assigned
    stops: map<nat, nat>)               // history: OnStop calls per launch attempt

  /** Other processes may have left ids and records behind. */
  ghost predicate Init(s: State, maxRunners: int) {
    && s.l == New(maxRunners)
    && s.runners == map[] && s.mu == Free && s.listener == Idle && s.shutdowns == map[] && s.reconciles == map[]
    && s.ours == {} && s.removed == {} && s.stops == map[]
    && s.known == s.records && (forall r | r in s.known :: s.known[r] in s.issued)
  }

  // ---------------------------------------------------------------- external effects

  /** RemoveRunner; a failed call may still have removed the registration. */
  function Removed(s: State, id: RunnerId, gone: bool): State {
    s.(removed := if gone then s.removed + {id} else s.removed)
  }

  /** RemoveOwnedRunner forces a record, and any instance behind it, out of the backend. */
  function Forget(s: State, r: ResourceId, gone: bool): State {
    s.(records := if gone then s.records - {r} else s.records,
       runners := map n | n in s.runners ::
         s.runners[n].(alive := s.runners[n].alive && !(gone && s.runners[n].resource == r)))
  }

  function Put(s: State, n: Name, r: Runner): State {
    s.(runners := s.runners[n := r])
  }

  // ---------------------------------------------------------------- the listener

  /** After Shutdown the callback only reports; nothing changes. */
  predicate DesiredRefused(s: State, s': State) {
    && s.listener == Idle && s.mu == Free && s.l.stopped
    && s' == s
  }

  predicate DesiredBegin(s: State, count: int, s': State) {
    && s.listener == Idle && s.mu == Free && !s.l.stopped
    && s' == s.(l := ApplyStatistics(s.l, count),
                runners := map n | n in s.runners ::
                  s.runners[n].(accounted := s.runners[n].accounted || n in s.l.completions),
                listener := CopyRegistrations(count))
  }

  predicate DesiredCopyRegistrations(s: State, s': State) {
    && s.listener.CopyRegistrations? && s.mu == Free
    && s' == s.(listener := RemoveRegistrations(s.listener.count, s.l.pendingRegistrations.Keys, false))
  }

  predicate DesiredRemoveRegistration(s: State, id: RunnerId, s': State) {
    && s.listener.RemoveRegistrations? && id in s.listener.todo
    && var p := s.listener;
    s' == Removed(s, id, true).(listener := DropRegistration(p.count, p.todo - {id}, p.failed, id))
  }

  predicate DesiredRemoveRegistrationError(s: State, id: RunnerId, gone: bool, s': State) {
    && s.listener.RemoveRegistrations? && id in s.listener.todo
    && var p := s.listener;
    s' == Removed(s, id, gone).(listener := RemoveRegistrations(p.count, p.todo - {id}, true))
  }

  predicate DesiredDropRegistration(s: State, s': State) {
    && s.listener.DropRegistration? && s.mu == Free
    && var p := s.listener;
    s' == s.(l := DropPendingRegistration(s.l, p.id), listener := RemoveRegistrations(p.count, p.todo, p.failed))
  }

  /** A permanent session error ends the callback; any other error is only logged. */
  predicate DesiredRegistrationsDone(s: State, permanent: bool, s': State) {
    && s.listener.RemoveRegistrations? && s.listener.todo == {} && (permanent ==> s.listener.failed)
    && s' == s.(listener := if permanent then Idle else CopyCleanups(s.listener.count))
  }

  predicate DesiredCopyCleanups(s: State, s': State) {
    && s.listener.CopyCleanups? && s.mu == Free
    && s' == s.(listener := Clean(s.listener.count,
                                  set n | n in s.l.running && n in s.l.states && s.l.states[n].cleanupStarted, false))
  }

  predicate DesiredStartCleanup(s: State, n: Name, s': State) {
    && s.listener.Clean? && n in s.listener.names && n in s.l.states && n in s.runners
    && var p := s.listener; var st := s.l.states[n];
    s' == Put(s, n, AddCall(s.runners[n], Listener, st.exitCode, st.waitErr, true)).(
            listener := CleanOne(p.count, p.names - {n}, p.failed, n))
  }

  predicate DesiredEndCleanup(s: State, cancelled: bool, s': State) {
    && s.listener.CleanOne?
    && var p := s.listener;
    && ReturnedCall(s, p.name, Listener)
    && s' == Put(s, p.name, DropCall(s.runners[p.name], Listener)).(
               listener := Clean(p.count, if cancelled then {} else p.names,
                                 p.failed || !s.runners[p.name].calls[Listener].pc.ok))
  }

  predicate DesiredCleanupsDone(s: State, permanent: bool, s': State) {
    && s.listener.Clean? && s.listener.names == {} && (permanent ==> s.listener.failed)
    && s' == s.(listener := if permanent then Idle else Decide(s.listener.count))
  }

  predicate DesiredTooLate(s: State, s': State) {
    && s.listener.Decide? && s.mu == Free && s.l.stopped
    && s' == s.(listener := Idle)
  }

  predicate DesiredLock(s: State, s': State) {
    && s.listener.Decide? && s.mu == Free && !s.l.stopped
    && var count := s.listener.count;
    s' == s.(mu := Held(ForDemand(count), Allowed(s.l, count), LoopHead), listener := Launching(count))
  }

  ghost predicate JobStarted(s: State, job: Job, hit: Option<Name>, s': State) {
    && s.listener == Idle && s.mu == Free && StartedHit(s.l, job, hit)
    && s' == s.(l := MarkBusy(s.l, hit))
  }

  ghost predicate JobCompleted(s: State, job: Job, hit: Option<Name>, s': State) {
    && s.listener == Idle && s.mu == Free && CompletedHit(s.l, job, hit)
    && s' == s.(l := NoteCompletion(s.l, hit))
  }

  // ---------------------------------------------------------------- launching, with l.mu held

  /** OnStart, then the sequence number. */
  predicate LaunchBegin(s: State, s': State) {
    && s.mu.Held? && s.mu.left > 0 && s.mu.stage == LoopHead
    && s' == s.(l := s.l.(seqNo := s.l.seqNo + 1), mu := s.mu.(stage := Begun), stops := s.stops[s.l.seqNo + 1 := 0])
  }

  function EndRefill(runners: map<Name, Runner>, holder: LaunchBy): map<Name, Runner> {
    if holder.ForRefill? && holder.exited in runners && runners[holder.exited].watch.Refilling?
    then runners[holder.exited := EndWatch(runners[holder.exited])]
    else runners
  }

  function EndWatch(r: Runner): Runner
    requires r.watch.Refilling?
  {
    r.(watch := Finished(r.watch.code, r.watch.err))
  }

  function CountStop(stops: map<nat, nat>, attempt: nat): map<nat, nat> {
    stops[attempt := (if attempt in stops then stops[attempt] else 0) + 1]
  }

  /** The lock holder returns; a refill ends its watcher, a demand callback its message. */
  function Unlock(s: State): State
    requires s.mu.Held?
  {
    s.(mu := Free,
       listener := if s.mu.lockedBy.ForDemand? then Idle else s.listener,
       runners := EndRefill(s.runners, s.mu.lockedBy))
  }

  /** A launch error: the deferred OnStop, then the loop is left and the mutex released. */
  function LaunchError(s: State): State
    requires s.mu.Held?
  {
    Unlock(s.(stops := CountStop(s.stops, s.l.seqNo)))
  }

  /** No runner name, a JIT error, a nil config, or a config without identity. */
  predicate LaunchFail(s: State, s': State) {
    && s.mu.Held? && s.mu.stage == Begun
    && s' == LaunchError(s)
  }

  predicate JitIssued(s: State, name: Name, id: RunnerId, s': State) {
    && s.mu.Held? && s.mu.stage == Begun && name !in s.l.states && id != 0 && id !in s.issued
    && s' == s.(mu := s.mu.(stage := Issued(name, id)), issued := s.issued + {id}, ours := s.ours + {id})
  }

  /** Backend.Launch; a nil handle with an error proves that no instance is live. */
  predicate BackendLaunch(s: State, r: ResourceId, outcome: Outcome, recorded: bool, alive: bool, s': State) {
    && s.mu.Held? && s.mu.stage.Issued? && r !in s.known
    && (outcome.Started? ==> outcome.handle == r && recorded)
    && (outcome.Absent? ==> !alive)
    && var g := s.mu.stage;
    s' == s.(mu := s.mu.(stage := Launched(g.name, g.id, r, outcome, alive)),
             known := s.known[r := g.id],
             records := if recorded then s.records[r := g.id] else s.records)
  }

  predicate LaunchRecord(s: State, s': State) {
    && s.mu.Held? && s.mu.left > 0 && s.mu.stage.Launched? && s.mu.stage.outcome.Started?
    && var g := s.mu.stage;
    s' == s.(l := AddRunner(s.l, g.name, FreshRunner(g.outcome.handle, g.id, false)),
             runners := s.runners[g.name :=
               Runner(s.l.seqNo, g.resource, false, g.alive, Blocked, None, map[], false, false)],
             mu := s.mu.(left := s.mu.left - 1, stage := LoopHead))
  }

  /** A partial launch up to the release of the mutex. */
  function PartialRecorded(s: State): State
    requires s.mu.Held? && s.mu.stage.Launched? && s.mu.stage.outcome.Unproven?
  {
    var g := s.mu.stage;
    s.(l := AddRunner(s.l, g.name, FreshRunner(g.outcome.handle, g.id, true)),
       runners := s.runners[g.name :=
         Runner(s.l.seqNo, g.resource, true, g.alive, Unwatched, None,
                map[PartialLaunch := Finish(-1, false, true, Waiting)], false, false)],
       stops := CountStop(s.stops, s.l.seqNo))
  }

  predicate LaunchRecordPartial(s: State, s': State) {
    && s.mu.Held? && s.mu.left > 0 && s.mu.stage.Launched? && s.mu.stage.outcome.Unproven?
    && s' == Unlock(PartialRecorded(s))
  }

  /** No instance was started, so the unused registration goes at once, or is remembered. */
  predicate LaunchUnregister(s: State, s': State) {
    && s.mu.Held? && s.mu.stage.Launched? && s.mu.stage.outcome.Absent?
    && s' == LaunchError(Removed(s, s.mu.stage.id, true))
  }

  predicate LaunchUnregisterError(s: State, gone: bool, s': State) {
    && s.mu.Held? && s.mu.stage.Launched? && s.mu.stage.outcome.Absent?
    && var g := s.mu.stage;
    s' == LaunchError(Removed(s, g.id, gone).(l := AddPendingRegistration(s.l, g.id, g.name)))
  }

  predicate LaunchUnlock(s: State, s': State) {
    && s.mu.Held? && s.mu.left == 0 && s.mu.stage == LoopHead
    && s' == Unlock(s)
  }

  // ---------------------------------------------------------------- runner exits

  predicate Known(s: State, n: Name) { n in s.runners && n in s.l.states }

  predicate InstanceExit(s: State, n: Name, s': State) {
    && Known(s, n)
    && s' == Put(s, n, s.runners[n].(alive := false))
  }

  /** Wait returns; without an error the instance has exited. */
  predicate WaitReturns(s: State, n: Name, code: int, err: bool, s': State) {
    && Known(s, n) && s.runners[n].watch.Blocked? && (!err ==> !s.runners[n].alive)
    && s' == Put(s, n, s.runners[n].(watch := WatchPc.Exited(code, err)))
  }

  /** A clean exit is recorded under the mutex. */
  predicate RecordCleanExit(s: State, n: Name, s': State) {
    && Known(s, n) && s.runners[n].watch == WatchPc.Exited(0, false) && s.mu == Free
    && var st := s.l.states[n]; var r := s.runners[n];
    s' == Put(s, n, r.(watch := WatchPc.Recorded(0, false),
                       inserted := r.inserted || (!st.completionAccounted && s.l.desired > 0))).(
            l := NoteCleanExit(s.l, n))
  }

  predicate RecordFailedExit(s: State, n: Name, s': State) {
    && Known(s, n) && s.runners[n].watch.Exited?
    && var w := s.runners[n].watch;
    && (w.err || w.code != 0)
    && s' == Put(s, n, s.runners[n].(watch := WatchPc.Recorded(w.code, w.err)))
  }

  predicate WatcherStartsCleanup(s: State, n: Name, s': State) {
    && Known(s, n) && s.runners[n].watch.Recorded?
    && var w := s.runners[n].watch;
    s' == Put(s, n, AddCall(s.runners[n], Watcher, w.code, w.err, w.err).(watch := WatchPc.Finishing(w.code, w.err)))
  }

  /** Only a runner that exited cleanly earns an immediate replacement. */
  predicate WatcherEndsCleanup(s: State, n: Name, s': State) {
    && Known(s, n) && s.runners[n].watch.Finishing? && ReturnedCall(s, n, Watcher)
    && var w := s.runners[n].watch;
    s' == Put(s, n, DropCall(s.runners[n], Watcher).(
                watch := if !w.err && w.code == 0 then Refilling(w.code, w.err) else Finished(w.code, w.err)))
  }

  /** Shutdown began, or the session context was cancelled. */
  predicate RefillSkipped(s: State, n: Name, cancelled: bool, s': State) {
    && Known(s, n) && s.runners[n].watch.Refilling? && s.mu == Free && (s.l.stopped || cancelled)
    && s' == Put(s, n, EndWatch(s.runners[n]))
  }

  predicate Refill(s: State, n: Name, s': State) {
    && Known(s, n) && s.runners[n].watch.Refilling? && s.mu == Free && !s.l.stopped
    && s' == s.(mu := Held(ForRefill(n), Allowed(s.l, s.l.desired), LoopHead))
  }

  // ---------------------------------------------------------------- finishRunner

  function AddCall(r: Runner, c: Caller, code: int, waitErr: bool, terminate: bool): Runner {
    r.(calls := r.calls[c := Finish(code, waitErr, terminate, Waiting)])
  }

  function DropCall(r: Runner, c: Caller): Runner {
    r.(calls := r.calls - {c})
  }

  predicate ReturnedCall(s: State, n: Name, c: Caller) {
    n in s.runners && c in s.runners[n].calls && s.runners[n].calls[c].pc.Returned?
  }

  predicate At(s: State, n: Name, c: Caller, pc: FinishPc) {
    Known(s, n) && c in s.runners[n].calls && s.runners[n].calls[c].pc == pc
  }

  function Goto(r: Runner, c: Caller, pc: FinishPc): Runner
    requires c in r.calls
  {
    r.(calls := r.calls[c := r.calls[c].(pc := pc)])
  }

  /** Return from the call and release the cleanup mutex. */
  function Return(r: Runner, c: Caller, ok: bool): Runner
    requires c in r.calls
  {
    r.(calls := r.calls[c := r.calls[c].(pc := Returned(ok))], holder := None)
  }

  function Step(s: State, n: Name, r: Runner, st: RunnerState): State {
    s.(runners := s.runners[n := r], l := SetRunner(s.l, n, st))
  }

  predicate FinishAlready(s: State, n: Name, c: Caller, s': State) {
    && At(s, n, c, Waiting) && s.runners[n].holder == None && s.l.states[n].cleaned
    && s' == Put(s, n, Goto(s.runners[n], c, Returned(true)))
  }

  predicate FinishEnter(s: State, n: Name, c: Caller, s': State) {
    && At(s, n, c, Waiting) && s.runners[n].holder == None && !s.l.states[n].cleaned
    && s' == Put(s, n, Goto(s.runners[n], c, Entered).(holder := Some(c)))
  }

  function AfterBegin(st: RunnerState, f: Finish): FinishPc {
    if st.terminated then Deregistering else if f.terminate then Killing else Confirming
  }

  predicate FinishBegin(s: State, n: Name, c: Caller, s': State) {
    && At(s, n, c, Entered) && s.mu == Free
    && var f := s.runners[n].calls[c]; var st := s.l.states[n];
    s' == Step(s, n,
               Goto(s.runners[n], c, AfterBegin(st, f)),
               StartCleanup(st, f.code, f.waitErr, f.terminate))
  }

  predicate FinishKill(s: State, n: Name, c: Caller, s': State) {
    && At(s, n, c, Killing)
    && s' == Put(s, n, Goto(s.runners[n], c, Confirming).(alive := false))
  }

  /** A failed kill may still have ended the instance. */
  predicate FinishKillError(s: State, n: Name, c: Caller, dead: bool, s': State) {
    && At(s, n, c, Killing)
    && s' == Put(s, n, Return(s.runners[n], c, false).(alive := s.runners[n].alive && !dead))
  }

  predicate FinishConfirm(s: State, n: Name, c: Caller, s': State) {
    && At(s, n, c, Confirming) && s.mu == Free
    && var st := s.l.states[n];
    s' == Step(s, n, Goto(s.runners[n], c, if st.stopReported then Deregistering else Reporting),
               ConfirmTermination(st))
  }

  /** OnStop, outside the lock. */
  predicate FinishReport(s: State, n: Name, c: Caller, s': State) {
    && At(s, n, c, Reporting)
    && s' == Put(s, n, Goto(s.runners[n], c, Deregistering)).(stops := CountStop(s.stops, s.runners[n].attempt))
  }

  predicate FinishKeepRegistration(s: State, n: Name, c: Caller, s': State) {
    && At(s, n, c, Deregistering) && !MustDeregister(s.l.states[n])
    && s' == Put(s, n, Goto(s.runners[n], c, Removing))
  }

  predicate FinishDeregister(s: State, n: Name, c: Caller, s': State) {
    && At(s, n, c, Deregistering) && MustDeregister(s.l.states[n])
    && var st := s.l.states[n];
    s' == Step(s, n, Goto(s.runners[n], c, Removing), st.(registrationRemoved := true)).(
            removed := s.removed + {st.runnerID})
  }

  predicate FinishDeregisterError(s: State, n: Name, c: Caller, gone: bool, s': State) {
    && At(s, n, c, Deregistering) && MustDeregister(s.l.states[n])
    && s' == Removed(Put(s, n, Return(s.runners[n], c, false)), s.l.states[n].runnerID, gone)
  }

  predicate FinishRemove(s: State, n: Name, c: Caller, s': State) {
    && At(s, n, c, Removing)
    && s' == Step(s, n, Goto(s.runners[n], c, Deleting), s.l.states[n].(cleaned := true)).(
               records := s.records - {s.runners[n].resource})
  }

  /** Also the outcome of a backend without ownership support. */
  predicate FinishRemoveError(s: State, n: Name, c: Caller, gone: bool, s': State) {
    && At(s, n, c, Removing)
    && s' == Put(s, n, Return(s.runners[n], c, false)).(
               records := if gone then s.records - {s.runners[n].resource} else s.records)
  }

  predicate FinishDelete(s: State, n: Name, c: Caller, s': State) {
    && At(s, n, c, Deleting) && s.mu == Free
    && s' == Put(s, n, Return(s.runners[n], c, !s.l.states[n].waitErr)).(l := DeleteRunner(s.l, n))
  }

  // ---------------------------------------------------------------- Shutdown

  predicate ShutdownBegin(s: State, k: nat, s': State) {
    && k !in s.shutdowns && s.mu == Free
    && s' == s.(l := s.l.(stopped := true),
                shutdowns := s.shutdowns[k := Joining(s.l.running)],
                runners := map n | n in s.runners ::
                  if n in s.l.running then AddCall(s.runners[n], Shutdown(k), -1, false, true) else s.runners[n])
  }

  predicate ShutdownJoin(s: State, k: nat, failed: bool, s': State) {
    && k in s.shutdowns && s.shutdowns[k].Joining?
    && var names := s.shutdowns[k].names;
    && (forall n | n in names :: ReturnedCall(s, n, Shutdown(k)))
    && (failed <==> exists n | n in names :: !s.runners[n].calls[Shutdown(k)].pc.ok)
    && s' == s.(shutdowns := s.shutdowns[k := CopyAll(failed)])
  }

  predicate ShutdownCopyRegistrations(s: State, k: nat, s': State) {
    && k in s.shutdowns && s.shutdowns[k].CopyAll? && s.mu == Free
    && s' == s.(shutdowns := s.shutdowns[k := RemoveAll(s.shutdowns[k].failed, s.l.pendingRegistrations.Keys)])
  }

  predicate ShutdownRemoveRegistration(s: State, k: nat, id: RunnerId, s': State) {
    && k in s.shutdowns && s.shutdowns[k].RemoveAll? && id in s.shutdowns[k].todo
    && var p := s.shutdowns[k];
    s' == Removed(s, id, true).(shutdowns := s.shutdowns[k := DropOne(p.failed, p.todo - {id}, id)])
  }

  predicate ShutdownRemoveRegistrationError(s: State, k: nat, id: RunnerId, gone: bool, s': State) {
    && k in s.shutdowns && s.shutdowns[k].RemoveAll? && id in s.shutdowns[k].todo
    && var p := s.shutdowns[k];
    s' == Removed(s, id, gone).(shutdowns := s.shutdowns[k := RemoveAll(true, p.todo - {id})])
  }

  predicate ShutdownDropRegistration(s: State, k: nat, s': State) {
    && k in s.shutdowns && s.shutdowns[k].DropOne? && s.mu == Free
    && var p := s.shutdowns[k];
    s' == s.(l := DropPendingRegistration(s.l, p.id), shutdowns := s.shutdowns[k := RemoveAll(p.failed, p.todo)])
  }

  predicate ShutdownReturn(s: State, k: nat, s': State) {
    && k in s.shutdowns && s.shutdowns[k].RemoveAll? && s.shutdowns[k].todo == {}
    && s' == s.(shutdowns := s.shutdowns[k := ShutdownReturned(!s.shutdowns[k].failed)])
  }

  // ---------------------------------------------------------------- Reconcile

  /** The backend lists records it has now. */
  predicate ReconcileList(s: State, k: nat, owned: set<Owned>, s': State) {
    && k !in s.reconciles
    && (forall o | o in owned :: o.resource in s.records && s.records[o.resource] == o.id)
    && s' == s.(reconciles := s.reconciles[k := Listed(owned)])
  }

  predicate ActiveHandle(l: LauncherState, r: ResourceId) {
    exists n | n in l.running :: n in l.states && l.states[n].handle == r
  }

  predicate ReconcileSnapshot(s: State, k: nat, s': State) {
    && k in s.reconciles && s.reconciles[k].Listed? && s.mu == Free
    && s' == s.(reconciles := s.reconciles[k :=
                  Working(set o | o in s.reconciles[k].owned && !ActiveHandle(s.l, o.resource))])
  }

  predicate ReconcileDeregister(s: State, k: nat, o: Owned, s': State) {
    && k in s.reconciles && s.reconciles[k].Working? && o in s.reconciles[k].todo
    && s' == Removed(s, o.id, true).(reconciles := s.reconciles[k := Deregistered(s.reconciles[k].todo - {o}, o)])
  }

  predicate ReconcileDeregisterError(s: State, k: nat, o: Owned, gone: bool, s': State) {
    && k in s.reconciles && s.reconciles[k].Working? && o in s.reconciles[k].todo
    && s' == Removed(s, o.id, gone).(reconciles := s.reconciles[k := Working(s.reconciles[k].todo - {o})])
  }

  predicate ReconcileRemove(s: State, k: nat, gone: bool, s': State) {
    && k in s.reconciles && s.reconciles[k].Deregistered?
    && var p := s.reconciles[k];
    s' == Forget(s, p.current.resource, gone).(reconciles := s.reconciles[k := Working(p.todo)])
  }

  // ---------------------------------------------------------------- the transition relation

  /** The listener callbacks. */
  datatype ListenerAction =
    | ADesiredRefused
    | ADesiredBegin(count: int)
    | ADesiredTooLate
    | ADesiredLock
    | AJobStarted(job: Job, hit: Option<Name>)
    | AJobCompleted(job: Job, hit: Option<Name>)

  ghost predicate ListenerNext(s: State, a: ListenerAction, s': State) {
    match a
    case ADesiredRefused => DesiredRefused(s, s')
    case ADesiredBegin(count) => DesiredBegin(s, count, s')
    case ADesiredTooLate => DesiredTooLate(s, s')
    case ADesiredLock => DesiredLock(s, s')
    case AJobStarted(job, hit) => JobStarted(s, job, hit, s')
    case AJobCompleted(job, hit) => JobCompleted(s, job, hit, s')
  }

  /** The retries inside a statistics callback. */
  datatype RetryAction =
    | ADesiredCopyRegistrations
    | ADesiredRemoveRegistration(id: RunnerId)
    | ADesiredRemoveRegistrationError(id: RunnerId, gone: bool)
    | ADesiredDropRegistration
    | ADesiredRegistrationsDone(permanent: bool)
    | ADesiredCopyCleanups
    | ADesiredStartCleanup(n: Name)
    | ADesiredEndCleanup(cancelled: bool)
    | ADesiredCleanupsDone(permanent: bool)

  ghost predicate RetryNext(s: State, a: RetryAction, s': State) {
    match a
    case ADesiredCopyRegistrations => DesiredCopyRegistrations(s, s')
    case ADesiredRemoveRegistration(id) => DesiredRemoveRegistration(s, id, s')
    case ADesiredRemoveRegistrationError(id, gone) => DesiredRemoveRegistrationError(s, id, gone, s')
    case ADesiredDropRegistration => DesiredDropRegistration(s, s')
    case ADesiredRegistrationsDone(permanent) => DesiredRegistrationsDone(s, permanent, s')
    case ADesiredCopyCleanups => DesiredCopyCleanups(s, s')
    case ADesiredStartCleanup(n) => DesiredStartCleanup(s, n, s')
    case ADesiredEndCleanup(cancelled) => DesiredEndCleanup(s, cancelled, s')
    case ADesiredCleanupsDone(permanent) => DesiredCleanupsDone(s, permanent, s')
  }

  /** The steps of a launch that keep the mutex. */
  datatype LaunchAction =
    | ALaunchBegin
    | AJitIssued(n: Name, id: RunnerId)
    | ABackendLaunch(r: ResourceId, outcome: Outcome, recorded: bool, alive: bool)
    | ALaunchRecord

  ghost predicate LaunchNext(s: State, a: LaunchAction, s': State) {
    match a
    case ALaunchBegin => LaunchBegin(s, s')
    case AJitIssued(n, id) => JitIssued(s, n, id, s')
    case ABackendLaunch(r, outcome, recorded, alive) => BackendLaunch(s, r, outcome, recorded, alive, s')
    case ALaunchRecord => LaunchRecord(s, s')
  }

  /** The steps that release the mutex. */
  datatype LaunchEndAction =
    | ALaunchFail
    | ALaunchRecordPartial
    | ALaunchUnregister
    | ALaunchUnregisterError(gone: bool)
    | ALaunchUnlock

  ghost predicate LaunchEndNext(s: State, a: LaunchEndAction, s': State) {
    match a
    case ALaunchFail => LaunchFail(s, s')
    case ALaunchRecordPartial => LaunchRecordPartial(s, s')
    case ALaunchUnregister => LaunchUnregister(s, s')
    case ALaunchUnregisterError(gone) => LaunchUnregisterError(s, gone, s')
    case ALaunchUnlock => LaunchUnlock(s, s')
  }

  /** The exit watchers. */
  datatype ExitAction =
    | AInstanceExit(n: Name)
    | AWaitReturns(n: Name, code: int, err: bool)
    | ARecordCleanExit(n: Name)
    | ARecordFailedExit(n: Name)
    | AWatcherStartsCleanup(n: Name)
    | AWatcherEndsCleanup(n: Name)
    | ARefillSkipped(n: Name, cancelled: bool)
    | ARefill(n: Name)

  ghost predicate ExitNext(s: State, a: ExitAction, s': State) {
    match a
    case AInstanceExit(n) => InstanceExit(s, n, s')
    case AWaitReturns(n, code, err) => WaitReturns(s, n, code, err, s')
    case ARecordCleanExit(n) => RecordCleanExit(s, n, s')
    case ARecordFailedExit(n) => RecordFailedExit(s, n, s')
    case AWatcherStartsCleanup(n) => WatcherStartsCleanup(s, n, s')
    case AWatcherEndsCleanup(n) => WatcherEndsCleanup(s, n, s')
    case ARefillSkipped(n, cancelled) => RefillSkipped(s, n, cancelled, s')
    case ARefill(n) => Refill(s, n, s')
  }

  /** The first half of a cleanup: confirm termination. */
  datatype TerminateAction =
    | AFinishAlready(n: Name, c: Caller)
    | AFinishEnter(n: Name, c: Caller)
    | AFinishBegin(n: Name, c: Caller)
    | AFinishKill(n: Name, c: Caller)
    | AFinishKillError(n: Name, c: Caller, dead: bool)
    | AFinishConfirm(n: Name, c: Caller)
    | AFinishReport(n: Name, c: Caller)

  ghost predicate TerminateNext(s: State, a: TerminateAction, s': State) {
    match a
    case AFinishAlready(n, c) => FinishAlready(s, n, c, s')
    case AFinishEnter(n, c) => FinishEnter(s, n, c, s')
    case AFinishBegin(n, c) => FinishBegin(s, n, c, s')
    case AFinishKill(n, c) => FinishKill(s, n, c, s')
    case AFinishKillError(n, c, dead) => FinishKillError(s, n, c, dead, s')
    case AFinishConfirm(n, c) => FinishConfirm(s, n, c, s')
    case AFinishReport(n, c) => FinishReport(s, n, c, s')
  }

  /** The second half: deregister, remove the record, forget the runner. */
  datatype ReleaseAction =
    | AFinishKeepRegistration(n: Name, c: Caller)
    | AFinishDeregister(n: Name, c: Caller)
    | AFinishDeregisterError(n: Name, c: Caller, gone: bool)
    | AFinishRemove(n: Name, c: Caller)
    | AFinishRemoveError(n: Name, c: Caller, gone: bool)
    | AFinishDelete(n: Name, c: Caller)

  ghost predicate ReleaseNext(s: State, a: ReleaseAction, s': State) {
    match a
    case AFinishKeepRegistration(n, c) => FinishKeepRegistration(s, n, c, s')
    case AFinishDeregister(n, c) => FinishDeregister(s, n, c, s')
    case AFinishDeregisterError(n, c, gone) => FinishDeregisterError(s, n, c, gone, s')
    case AFinishRemove(n, c) => FinishRemove(s, n, c, s')
    case AFinishRemoveError(n, c, gone) => FinishRemoveError(s, n, c, gone, s')
    case AFinishDelete(n, c) => FinishDelete(s, n, c, s')
  }

  datatype ShutdownAction =
    | AShutdownBegin(k: nat)
    | AShutdownJoin(k: nat, failed: bool)
    | AShutdownCopyRegistrations(k: nat)
    | AShutdownRemoveRegistration(k: nat, id: RunnerId)
    | AShutdownRemoveRegistrationError(k: nat, id: RunnerId, gone: bool)
    | AShutdownDropRegistration(k: nat)
    | AShutdownReturn(k: nat)

  ghost predicate ShutdownNext(s: State, a: ShutdownAction, s': State) {
    match a
    case AShutdownBegin(k) => ShutdownBegin(s, k, s')
    case AShutdownJoin(k, failed) => ShutdownJoin(s, k, failed, s')
    case AShutdownCopyRegistrations(k) => ShutdownCopyRegistrations(s, k, s')
    case AShutdownRemoveRegistration(k, id) => ShutdownRemoveRegistration(s, k, id, s')
    case AShutdownRemoveRegistrationError(k, id, gone) => ShutdownRemoveRegistrationError(s, k, id, gone, s')
    case AShutdownDropRegistration(k) => ShutdownDropRegistration(s, k, s')
    case AShutdownReturn(k) => ShutdownReturn(s, k, s')
  }

  datatype ReconcileAction =
    | AReconcileList(k: nat, owned: set<Owned>)
    | AReconcileSnapshot(k: nat)
    | AReconcileDeregister(k: nat, o: Owned)
    | AReconcileDeregisterError(k: nat, o: Owned, gone: bool)
    | AReconcileRemove(k: nat, gone: bool)

  ghost predicate ReconcileNext(s: State, a: ReconcileAction, s': State) {
    match a
    case AReconcileList(k, owned) => ReconcileList(s, k, owned, s')
    case AReconcileSnapshot(k) => ReconcileSnapshot(s, k, s')
    case AReconcileDeregister(k, o) => ReconcileDeregister(s, k, o, s')
    case AReconcileDeregisterError(k, o, gone) => ReconcileDeregisterError(s, k, o, gone, s')
    case AReconcileRemove(k, gone) => ReconcileRemove(s, k, gone, s')
  }

  datatype Action =
    | OfListener(listener: ListenerAction)
    | OfRetry(retry: RetryAction)
    | OfLaunch(launch: LaunchAction)
    | OfLaunchEnd(launchEnd: LaunchEndAction)
    | OfExit(exit: ExitAction)
    | OfTerminate(terminate: TerminateAction)
    | OfRelease(release: ReleaseAction)
    | OfShutdown(shutdown: ShutdownAction)
    | OfReconcile(reconcile: ReconcileAction)

  ghost predicate Next(s: State, a: Action, s': State) {
    match a
    case OfListener(b) => ListenerNext(s, b, s')
    case OfRetry(b) => RetryNext(s, b, s')
    case OfLaunch(b) => LaunchNext(s, b, s')
    case OfLaunchEnd(b) => LaunchEndNext(s, b, s')
    case OfExit(b) => ExitNext(s, b, s')
    case OfTerminate(b) => TerminateNext(s, b, s')
    case OfRelease(b) => ReleaseNext(s, b, s')
    case OfShutdown(b) => ShutdownNext(s, b, s')
    case OfReconcile(b) => ReconcileNext(s, b, s')
  }

  /** A run: states and the actions between them, from an initial state. */
  datatype Run = Run(states: seq<State>, actions: seq<Action>)

  ghost predicate ValidRun(run: Run, maxRunners: int) {
    && |run.states| == |run.actions| + 1
    && Init(run.states[0], maxRunners)
    && forall i {:trigger run.actions[i]} | 0 <= i < |run.actions| ::
         Next(run.states[i], run.actions[i], run.states[i + 1])
  }
}
