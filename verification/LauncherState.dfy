/** The data of the scale-set launcher and what each of its critical sections does to it. */
module LauncherState {
  import opened Common

  type Name = string
  type RunnerId = int
  type ResourceId = string

  /** One runner, as the launcher tracks it. */
  datatype RunnerState = RunnerState(
    handle: ResourceId,
    runnerID: RunnerId,
    busy: bool,
    completionAccounted: bool,
    occupiesCapacity: bool,
    cleanupStarted: bool,
    needsDeregistration: bool,
    registrationRemoved: bool,
    terminated: bool,
    cleaned: bool,
    stopReported: bool,
    exitCode: int,
    waitErr: bool)

  /**
   * The fields of the launcher. `states` holds every runner state ever created, because goroutines
   * keep their pointers after a name leaves `running`; names are never reused.
   */
  datatype LauncherState = LauncherState(
    maxRunners: int,
    states: map<Name, RunnerState>,
    running: set<Name>,
    pendingRegistrations: map<RunnerId, Name>,
    pendingExits: map<Name, RunnerId>,
    completions: set<Name>,
    seqNo: nat,
    desired: int,
    stopped: bool)

  /** A job message: the broker may identify the runner by id, by name, or by both. */
  datatype Job = Job(runnerID: RunnerId, runnerName: Name)

  function New(maxRunners: int): LauncherState {
    LauncherState(maxRunners, map[], {}, map[], map[], {}, 0, 0, false)
  }

  function FreshRunner(handle: ResourceId, id: RunnerId, partial: bool): RunnerState {
    RunnerState(handle, id, false, false, true, false, false, false, false, false, partial, 0, false)
  }

  /** The runners that count against capacity and demand. */
  function Occupying(l: LauncherState): set<Name> {
    set n | n in l.running && n in l.states && l.states[n].occupiesCapacity
  }

  /** How many launches a lock holder may start to reach `want`. */
  function Allowed(l: LauncherState, want: int): nat {
    var have := |Occupying(l)|;
    var net := want - |l.pendingExits|;
    if net <= have then 0
    else if l.maxRunners > 0 then
      if l.maxRunners <= have then 0
      else if net - have > l.maxRunners - have then l.maxRunners - have else net - have
    else net - have
  }

  /** The statistics callback first applies the completions it now accounts for. */
  function ApplyStatistics(l: LauncherState, count: int): LauncherState {
    l.(pendingExits := if count == 0 then map[] else l.pendingExits - l.completions,
       states := map n | n in l.states ::
         if n in l.completions && n in l.running then l.states[n].(completionAccounted := true) else l.states[n],
       completions := {},
       desired := count)
  }

  predicate Matches(job: Job, name: Name, id: RunnerId) {
    (job.runnerID != 0 && id == job.runnerID) || (job.runnerName != "" && name == job.runnerName)
  }

  predicate RunningMatch(l: LauncherState, job: Job, name: Name) {
    name in l.running && name in l.states && Matches(job, name, l.states[name].runnerID)
  }

  predicate PendingMatch(l: LauncherState, job: Job, name: Name) {
    name in l.pendingExits && Matches(job, name, l.pendingExits[name])
  }

  /** `hit` is a runner that map iteration may reach first, or None when no runner matches. */
  ghost predicate StartedHit(l: LauncherState, job: Job, hit: Option<Name>) {
    match hit
    case Some(n) => RunningMatch(l, job, n)
    case None => forall n | n in l.running :: !RunningMatch(l, job, n)
  }

  function MarkBusy(l: LauncherState, hit: Option<Name>): LauncherState {
    l.(states := if hit.Some? && hit.value in l.states
                 then l.states[hit.value := l.states[hit.value].(busy := true)] else l.states)
  }

  ghost predicate CompletedHit(l: LauncherState, job: Job, hit: Option<Name>) {
    match hit
    case Some(n) =>
      RunningMatch(l, job, n) || ((forall m | m in l.running :: !RunningMatch(l, job, m)) && PendingMatch(l, job, n))
    case None =>
      && (forall m | m in l.running :: !RunningMatch(l, job, m))
      && (forall m | m in l.pendingExits :: !PendingMatch(l, job, m))
  }

  function NoteCompletion(l: LauncherState, hit: Option<Name>): LauncherState {
    l.(completions := if hit.Some? then l.completions + {hit.value} else l.completions)
  }

  /** A clean exit is subtracted from demand until the broker accounts for it. */
  function NoteCleanExit(l: LauncherState, name: Name): LauncherState
    requires name in l.states
  {
    l.(pendingExits := if !l.states[name].completionAccounted && l.desired > 0
                       then l.pendingExits[name := l.states[name].runnerID] else l.pendingExits)
  }

  function AddRunner(l: LauncherState, name: Name, st: RunnerState): LauncherState {
    l.(states := l.states[name := st], running := l.running + {name})
  }

  function AddPendingRegistration(l: LauncherState, id: RunnerId, name: Name): LauncherState {
    l.(pendingRegistrations := l.pendingRegistrations[id := name])
  }

  function DropPendingRegistration(l: LauncherState, id: RunnerId): LauncherState {
    l.(pendingRegistrations := l.pendingRegistrations - {id})
  }

  /** First critical section of a cleanup. */
  function StartCleanup(st: RunnerState, code: int, waitErr: bool, terminate: bool): RunnerState {
    st.(cleanupStarted := true,
        needsDeregistration := if st.cleanupStarted then st.needsDeregistration else terminate || !st.busy,
        exitCode := if st.cleanupStarted && terminate then st.exitCode else code,
        waitErr := if st.cleanupStarted && terminate then st.waitErr else waitErr)
  }

  /** Confirmed termination frees the slot and claims the stop report. */
  function ConfirmTermination(st: RunnerState): RunnerState {
    st.(terminated := true, occupiesCapacity := false, stopReported := true)
  }

  function MustDeregister(st: RunnerState): bool {
    st.runnerID != 0 && st.needsDeregistration && !st.registrationRemoved
  }

  function SetRunner(l: LauncherState, name: Name, st: RunnerState): LauncherState {
    l.(states := l.states[name := st])
  }

  function DeleteRunner(l: LauncherState, name: Name): LauncherState {
    l.(running := l.running - {name})
  }
}
