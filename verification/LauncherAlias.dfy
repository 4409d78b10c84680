/** A partial launch whose handle id is an alias is not recognised by reconciliation. */
module LauncherAlias {
  import opened Common
  import opened LauncherState
  import opened LauncherProtocol
  import opened LauncherSafety

  ghost predicate Reaches(s: State, max: int) {
    exists run :: ValidRun(run, max) && run.states[|run.actions|] == s
  }

  lemma Starts(s: State, max: int)
    requires Init(s, max)
    ensures Reaches(s, max)
  {
    var run := Run([s], []);
    assert ValidRun(run, max) && run.states[|run.actions|] == s;
  }

  lemma Steps(s: State, a: Action, s': State, max: int)
    requires Reaches(s, max) && Next(s, a, s')
    ensures Reaches(s', max)
  {
    var run :| ValidRun(run, max) && run.states[|run.actions|] == s;
    var longer := Run(run.states + [s'], run.actions + [a]);
    forall i | 0 <= i < |longer.actions| ensures Next(longer.states[i], longer.actions[i], longer.states[i + 1]) {
      if i < |run.actions| { assert Next(run.states[i], run.actions[i], run.states[i + 1]); }
    }
    assert ValidRun(longer, max) && longer.states[|longer.actions|] == s';
  }

  function Asked(listener: ListenerPc): State {
    State(New(0).(desired := 1), map[], Free, listener, map[], map[], {}, {}, {}, map[], map[], map[])
  }

  function Empty(): State {
    State(New(0), map[], Free, Idle, map[], map[], {}, {}, {}, map[], map[], map[])
  }

  function Holding(stage: Stage): State {
    Asked(Launching(1)).(mu := Held(ForDemand(1), 1, stage))
  }

  lemma Begins()
    ensures DesiredBegin(Empty(), 1, Asked(CopyRegistrations(1)))
  {
    assert ApplyStatistics(New(0), 1) == New(0).(desired := 1);
  }

  lemma CopiesRegistrations()
    ensures DesiredCopyRegistrations(Asked(CopyRegistrations(1)), Asked(RemoveRegistrations(1, {}, false)))
  {
    var none: map<RunnerId, Name> := map[];
    assert none.Keys == {};
  }

  lemma RemovesNone()
    ensures DesiredRegistrationsDone(Asked(RemoveRegistrations(1, {}, false)), false, Asked(CopyCleanups(1)))
  {}

  lemma CopiesCleanups()
    ensures DesiredCopyCleanups(Asked(CopyCleanups(1)), Asked(Clean(1, {}, false)))
  {
    var l := Asked(CopyCleanups(1)).l;
    assert (set n | n in l.running && n in l.states && l.states[n].cleanupStarted) == {};
  }

  lemma CleansNone()
    ensures DesiredCleanupsDone(Asked(Clean(1, {}, false)), false, Asked(Decide(1)))
  {}

  lemma Locks()
    ensures DesiredLock(Asked(Decide(1)), Holding(LoopHead))
  {
    assert Occupying(Asked(Decide(1)).l) == {};
  }

  lemma AskOne()
    ensures Reaches(Asked(CopyCleanups(1)), 0)
  {
    Starts(Empty(), 0);
    Begins();
    Steps(Empty(), OfListener(ADesiredBegin(1)), Asked(CopyRegistrations(1)), 0);
    CopiesRegistrations();
    Steps(Asked(CopyRegistrations(1)), OfRetry(ADesiredCopyRegistrations), Asked(RemoveRegistrations(1, {}, false)), 0);
    RemovesNone();
    Steps(Asked(RemoveRegistrations(1, {}, false)), OfRetry(ADesiredRegistrationsDone(false)),
          Asked(CopyCleanups(1)), 0);
  }

  /** The broker asks for one runner, and the launch loop starts. */
  lemma DemandOne()
    ensures Reaches(Holding(LoopHead), 0)
  {
    AskOne();
    CopiesCleanups();
    Steps(Asked(CopyCleanups(1)), OfRetry(ADesiredCopyCleanups), Asked(Clean(1, {}, false)), 0);
    CleansNone();
    Steps(Asked(Clean(1, {}, false)), OfRetry(ADesiredCleanupsDone(false)), Asked(Decide(1)), 0);
    Locks();
    Steps(Asked(Decide(1)), OfListener(ADesiredLock), Holding(LoopHead), 0);
  }

  function Started(stage: Stage): State {
    var s := Holding(stage);
    s.(l := s.l.(seqNo := 1), stops := map[1 := 0])
  }

  function WithId(stage: Stage): State {
    Started(stage).(issued := {7}, ours := {7})
  }

  function WithResource(name: Name, resource: ResourceId, alias: ResourceId): State {
    WithId(Launched(name, 7, resource, Unproven(alias), true)).(
      records := map[resource := 7], known := map[resource := 7])
  }

  /** The state after a launch that failed, with a live instance, under the handle id `alias`. */
  function Partial(name: Name, resource: ResourceId, alias: ResourceId): State {
    var l := New(0).(desired := 1, seqNo := 1, states := map[name := FreshRunner(alias, 7, true)], running := {name});
    var calls := map[PartialLaunch := Finish(-1, false, true, Waiting)];
    var r := Runner(1, resource, true, true, Unwatched, None, calls, false, false);
    var records := map[resource := 7];
    State(l, map[name := r], Free, Idle, map[], map[], {7}, {7}, {}, records, records, map[1 := 1])
  }

  lemma LaunchSteps(name: Name, resource: ResourceId, alias: ResourceId)
    ensures LaunchBegin(Holding(LoopHead), Started(Begun))
    ensures JitIssued(Started(Begun), name, 7, WithId(Issued(name, 7)))
    ensures BackendLaunch(WithId(Issued(name, 7)), resource, Unproven(alias), true, true,
                          WithResource(name, resource, alias))
  {}

  lemma RecordsPartially(name: Name, resource: ResourceId, alias: ResourceId)
    ensures LaunchRecordPartial(WithResource(name, resource, alias), Partial(name, resource, alias))
  {}

  lemma LaunchesPartially(name: Name, resource: ResourceId, alias: ResourceId)
    ensures Reaches(Partial(name, resource, alias), 0)
  {
    DemandOne();
    LaunchSteps(name, resource, alias);
    RecordsPartially(name, resource, alias);
    Steps(Holding(LoopHead), OfLaunch(ALaunchBegin), Started(Begun), 0);
    Steps(Started(Begun), OfLaunch(AJitIssued(name, 7)), WithId(Issued(name, 7)), 0);
    Steps(WithId(Issued(name, 7)), OfLaunch(ABackendLaunch(resource, Unproven(alias), true, true)),
          WithResource(name, resource, alias), 0);
    Steps(WithResource(name, resource, alias), OfLaunchEnd(ALaunchRecordPartial), Partial(name, resource, alias), 0);
  }

  function Reconciles(name: Name, resource: ResourceId, alias: ResourceId, pc: ReconcilePc): State {
    Partial(name, resource, alias).(reconciles := map[0 := pc])
  }

  lemma Lists(name: Name, resource: ResourceId, alias: ResourceId)
    ensures ReconcileList(Partial(name, resource, alias), 0, {Owned(resource, 7)},
                          Reconciles(name, resource, alias, Listed({Owned(resource, 7)})))
  {}

  lemma Snapshots(name: Name, resource: ResourceId, alias: ResourceId)
    requires alias != resource
    ensures ReconcileSnapshot(Reconciles(name, resource, alias, Listed({Owned(resource, 7)})), 0,
                              Reconciles(name, resource, alias, Working({Owned(resource, 7)})))
  {
    var o, s := Owned(resource, 7), Reconciles(name, resource, alias, Listed({Owned(resource, 7)}));
    assert !ActiveHandle(s.l, resource);
    var todo := set x | x in s.reconciles[0].owned && !ActiveHandle(s.l, x.resource);
    assert todo == {o};
    assert s.reconciles[0 := Working(todo)] == map[0 := Working({o})];
  }

  function AfterDeregistration(name: Name, resource: ResourceId, alias: ResourceId): State {
    Removed(Reconciles(name, resource, alias, Deregistered({}, Owned(resource, 7))), 7, true)
  }

  lemma Deregisters(name: Name, resource: ResourceId, alias: ResourceId)
    ensures ReconcileDeregister(Reconciles(name, resource, alias, Working({Owned(resource, 7)})), 0, Owned(resource, 7),
                                AfterDeregistration(name, resource, alias))
  {
    var o := Owned(resource, 7);
    assert {o} - {o} == {};
    assert map[0 := Working({o})][0 := Deregistered({}, o)] == map[0 := Deregistered({}, o)];
  }

  /**
   * Some run reconciles away a runner that is still listed as running: it launched partially, and the
   * id of its handle is not the id of its resource.
   */
  lemma AliasIsReconciled(name: Name, resource: ResourceId, alias: ResourceId)
    requires alias != resource
    ensures exists s, s' ::
      && Reaches(s, 0) && name in s.l.running && Known(s, name) && s.runners[name].alive
      && s.runners[name].resource == resource && s.l.states[name].handle == alias
      && Next(s, OfReconcile(AReconcileDeregister(0, Owned(resource, 7))), s')
  {
    LaunchesPartially(name, resource, alias);
    Lists(name, resource, alias);
    Snapshots(name, resource, alias);
    Deregisters(name, resource, alias);
    var o := Owned(resource, 7);
    var s := Reconciles(name, resource, alias, Working({o}));
    Steps(Partial(name, resource, alias), OfReconcile(AReconcileList(0, {o})),
          Reconciles(name, resource, alias, Listed({o})), 0);
    Steps(Reconciles(name, resource, alias, Listed({o})), OfReconcile(AReconcileSnapshot(0)), s, 0);
    assert Next(s, OfReconcile(AReconcileDeregister(0, o)), AfterDeregistration(name, resource, alias));
  }
}
