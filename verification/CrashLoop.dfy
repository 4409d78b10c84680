/** The crash-loop budget: which failures the service remembers and when it stops starting workers. */
module CrashLoop {

  /** Instants and durations in nanoseconds. */
  type Time = int

  const FAILURE_WINDOW: int := 10 * 60 * 1000000000
  const CRASH_LOOP_COUNT: nat := 4

  predicate InWindow(x: Time, now: Time) {
    now - FAILURE_WINDOW < x <= now
  }

  function Recent(failures: seq<Time>, now: Time): (r: seq<Time>)
    ensures forall x | x in r :: x in failures && InWindow(x, now)
    ensures |r| <= |failures|
  {
    if failures == [] then []
    else if InWindow(failures[0], now) then [failures[0]] + Recent(failures[1..], now)
    else Recent(failures[1..], now)
  }

  method RecentFailures(failures: seq<Time>, now: Time) returns (recent: seq<Time>)
    ensures recent == Recent(failures, now)
    ensures forall x :: x in recent <==> x in failures && now - 600_000_000_000 < x <= now
  {
    forall x | x in failures && InWindow(x, now) ensures x in Recent(failures, now) {
      RecentKeepsMembers(failures, now, x);
    }
    var cutoff := now - FAILURE_WINDOW;
    recent := [];
    for i := 0 to |failures|
      invariant recent + Recent(failures[i..], now) == Recent(failures, now)
    {
      assert failures[i..][1..] == failures[i + 1..];
      if failures[i] > cutoff && !(failures[i] > now) {
        recent := recent + [failures[i]];
      }
    }
  }

  // ---------------------------------------------------------------- pruning

  /** One failure counts for ten minutes; with `RecentAppend` this says which of several do, in order. */
  lemma RecentOfOne(x: Time, now: Time)
    ensures Recent([x], now) == if now - 600_000_000_000 < x <= now then [x] else []
  {
    assert [x][1..] == [];
  }

  lemma {:induction false} RecentAppend(a: seq<Time>, b: seq<Time>, now: Time)
    ensures Recent(a + b, now) == Recent(a, now) + Recent(b, now)
  {
    if a == [] {
      assert a + b == b;
    } else {
      assert (a + b)[1..] == a[1..] + b;
      RecentAppend(a[1..], b, now);
    }
  }

  lemma {:induction false} RecentKeepsMembers(failures: seq<Time>, now: Time, x: Time)
    requires x in failures && InWindow(x, now)
    ensures x in Recent(failures, now)
  {
    if failures[0] != x { RecentKeepsMembers(failures[1..], now, x); }
  }

  /**
   * Pruning at one instant loses nothing that counts at a later one, exactly when nothing counting
   * then was recorded after the pruning instant.
   */
  lemma {:induction false} PruningHarmlessIff(failures: seq<Time>, pruned: Time, now: Time)
    requires pruned <= now
    ensures Recent(Recent(failures, pruned), now) == Recent(failures, now) <==>
            forall x | x in failures && InWindow(x, now) :: x <= pruned
  {
    if forall x | x in failures && InWindow(x, now) :: x <= pruned {
      PruningHarmless(failures, pruned, now);
    } else {
      var x :| x in failures && InWindow(x, now) && x > pruned;
      RecentKeepsMembers(failures, now, x);
      assert x !in Recent(Recent(failures, pruned), now);
    }
  }

  lemma {:induction false} PruningHarmless(failures: seq<Time>, pruned: Time, now: Time)
    requires pruned <= now && forall x | x in failures && InWindow(x, now) :: x <= pruned
    ensures Recent(Recent(failures, pruned), now) == Recent(failures, now)
  {
    if failures != [] {
      PruningHarmless(failures[1..], pruned, now);
      if InWindow(failures[0], pruned) {
        assert Recent(failures, pruned) == [failures[0]] + Recent(failures[1..], pruned);
        assert Recent(failures, pruned)[1..] == Recent(failures[1..], pruned);
      }
    }
  }

  lemma {:induction false} NarrowerWindow(failures: seq<Time>, inner: Time, outer: Time)
    requires forall x | x in failures && InWindow(x, inner) :: InWindow(x, outer)
    ensures |Recent(failures, inner)| <= |Recent(failures, outer)|
  {
    if failures != [] { NarrowerWindow(failures[1..], inner, outer); }
  }

  // ---------------------------------------------------------------- runs

  /**
   * What happens to one service configuration, one event after the other. A worker run asks the gate
   * at `begun` and ends at `ended`; a record may fail to be written. Interactive runs skip the gate
   * and are not recorded. An unchecked failure is one of a service that never got as far as its gate.
   */
  datatype Event =
    | Worker(begun: Time, ended: Time, fails: bool, saved: bool)
    | Interactive(at: Time)
    | Unchecked(at: Time, saved: bool)
    | Clear(at: Time, removed: bool)

  /** `stored` is the file; `log` every failure recorded since it was last cleared, `unchecked` those without a gate. */
  datatype State = State(stored: seq<Time>, log: seq<Time>, unchecked: seq<Time>, now: Time)

  predicate Starts(s: State, begun: Time) {
    |Recent(s.stored, begun)| < CRASH_LOOP_COUNT
  }

  predicate Timely(s: State, e: Event) {
    match e
    case Worker(begun, ended, _, _) => s.now <= begun <= ended
    case Interactive(at) => s.now <= at
    case Unchecked(at, _) => s.now <= at
    case Clear(at, _) => s.now <= at
  }

  function Record(s: State, at: Time): State {
    s.(stored := Recent(s.stored, at) + [at], log := s.log + [at], now := at)
  }

  function Step(s: State, e: Event): State {
    match e
    case Worker(begun, ended, fails, saved) =>
      if Starts(s, begun) && fails && saved then Record(s, ended) else s.(now := ended)
    case Interactive(at) => s.(now := at)
    case Unchecked(at, saved) => if saved then Record(s, at).(unchecked := s.unchecked + [at]) else s.(now := at)
    case Clear(at, removed) => if removed then Fresh(at) else s.(now := at)
  }

  predicate Legal(s: State, events: seq<Event>)
    decreases |events|
  {
    events == [] || (Timely(s, events[0]) && Legal(Step(s, events[0]), events[1..]))
  }

  function Exec(s: State, events: seq<Event>): State
    decreases |events|
  {
    if events == [] then s else Exec(Step(s, events[0]), events[1..])
  }

  /** The pruned file answers every later question as the full log would, and no window is overfull. */
  ghost predicate Inv(s: State) {
    && (forall x | x in s.log :: x <= s.now)
    && Sorted(s.log)
    && (forall x | x in s.stored :: x <= s.now)
    && (forall t | s.now <= t :: Faithful(s, t))
    && (forall w: Time :: WithinBudget(s, w))
  }

  predicate Faithful(s: State, t: Time) {
    Recent(s.stored, t) == Recent(s.log, t)
  }

  predicate WithinBudget(s: State, w: Time) {
    |Recent(s.log, w)| <= CRASH_LOOP_COUNT + |Recent(s.unchecked, w)|
  }

  predicate Sorted(times: seq<Time>) {
    forall i, j | 0 <= i < j < |times| :: times[i] <= times[j]
  }

  /** A record keeps the file faithful, with or without a gate. */
  lemma RecordKeepsFaithful(s: State, at: Time)
    requires Inv(s) && s.now <= at
    ensures forall t | at <= t :: Faithful(Record(s, at), t)
    ensures Sorted(Record(s, at).log)
  {
    forall t | at <= t ensures Faithful(Record(s, at), t) {
      assert Faithful(s, t);
      PruningHarmless(s.stored, at, t);
      RecentAppend(Recent(s.stored, at), [at], t);
      RecentAppend(s.log, [at], t);
    }
    forall i | 0 <= i < |s.log| ensures s.log[i] <= at {
      assert s.log[i] in s.log;
    }
  }

  lemma GatedKeepsBudget(s: State, begun: Time, ended: Time, w: Time)
    requires Inv(s) && s.now <= begun <= ended && Starts(s, begun)
    ensures WithinBudget(Record(s, ended), w)
  {
    assert WithinBudget(s, w) && Faithful(s, begun);
    RecentAppend(s.log, [ended], w);
    if InWindow(ended, w) {
      NarrowerWindow(s.log, w, begun);
    }
  }

  lemma UncheckedKeepsBudget(s: State, at: Time, w: Time)
    requires Inv(s) && s.now <= at
    ensures WithinBudget(Step(s, Unchecked(at, true)), w)
  {
    assert WithinBudget(s, w);
    RecentAppend(s.log, [at], w);
    RecentAppend(s.unchecked, [at], w);
  }

  lemma StepKeepsInv(s: State, e: Event)
    requires Inv(s) && Timely(s, e)
    ensures Inv(Step(s, e))
  {
    if e.Worker? && Starts(s, e.begun) && e.fails && e.saved {
      RecordKeepsFaithful(s, e.ended);
      forall w: Time ensures WithinBudget(Step(s, e), w) { GatedKeepsBudget(s, e.begun, e.ended, w); }
    } else if e.Unchecked? && e.saved {
      RecordKeepsFaithful(s, e.at);
      forall t | e.at <= t ensures Faithful(Step(s, e), t) { assert Faithful(Record(s, e.at), t); }
      forall w: Time ensures WithinBudget(Step(s, e), w) { UncheckedKeepsBudget(s, e.at, w); }
    } else if !(e.Clear? && e.removed) {
      forall t | Step(s, e).now <= t ensures Faithful(Step(s, e), t) { assert Faithful(s, t); }
      forall w: Time ensures WithinBudget(Step(s, e), w) { assert WithinBudget(s, w); }
    }
  }

  lemma {:induction false} ExecKeepsInv(s: State, events: seq<Event>)
    requires Inv(s) && Legal(s, events)
    ensures Inv(Exec(s, events))
    decreases |events|
  {
    if events != [] {
      StepKeepsInv(s, events[0]);
      ExecKeepsInv(Step(s, events[0]), events[1..]);
    }
  }

  function Fresh(at: Time): State {
    State([], [], [], at)
  }

  /**
   * Between two clears, no ten-minute window holds more than four recorded failures besides those that
   * never asked the gate.
   */
  lemma CrashLoopBounded(at: Time, events: seq<Event>, w: Time)
    requires Legal(Fresh(at), events)
    ensures var s := Exec(Fresh(at), events); |Recent(s.log, w)| <= 4 + |Recent(s.unchecked, w)|
  {
    ExecKeepsInv(Fresh(at), events);
    assert WithinBudget(Exec(Fresh(at), events), w);
  }

  /** The gate opens exactly when fewer than four failures since the last clear are still in the window. */
  lemma GateOpensIff(at: Time, events: seq<Event>, begun: Time)
    requires Legal(Fresh(at), events) && Exec(Fresh(at), events).now <= begun
    ensures Starts(Exec(Fresh(at), events), begun) <==> |Recent(Exec(Fresh(at), events).log, begun)| < 4
  {
    ExecKeepsInv(Fresh(at), events);
    assert Faithful(Exec(Fresh(at), events), begun);
  }

  lemma {:induction false} AllRecent(failures: seq<Time>, now: Time)
    requires forall x | x in failures :: InWindow(x, now)
    ensures Recent(failures, now) == failures
  {
    if failures != [] { AllRecent(failures[1..], now); }
  }

  function Crash(s: State, at: Time): State {
    Step(s, Worker(at, at, true, true))
  }

  lemma CrashExtends(s: State, at: Time)
    requires s.stored == s.log && |s.log| < CRASH_LOOP_COUNT && forall x | x in s.log :: InWindow(x, at)
    ensures Crash(s, at) == s.(stored := s.log + [at], log := s.log + [at], now := at)
  {
    AllRecent(s.log, at);
  }

  /** Crashes so close together that none leaves the window: each is recorded, up to the fourth. */
  lemma {:induction false} CrashesAddUp(s: State, times: seq<Time>)
    requires s.stored == s.log && |s.log| + |times| <= CRASH_LOOP_COUNT
    requires forall x, i | x in s.log && 0 <= i < |times| :: InWindow(x, times[i])
    requires forall i, j | 0 <= i <= j < |times| :: InWindow(times[i], times[j])
    ensures CrashAll(s, times).stored == CrashAll(s, times).log == s.log + times
    decreases |times|
  {
    if times == [] {
      assert s.log + times == s.log;
    } else {
      CrashExtends(s, times[0]);
      CrashesAddUp(Crash(s, times[0]), times[1..]);
      assert s.log + [times[0]] + times[1..] == s.log + times;
    }
  }

  function CrashAll(s: State, times: seq<Time>): State
    decreases |times|
  {
    if times == [] then s else CrashAll(Crash(s, times[0]), times[1..])
  }

  /** The bound is tight: four crashes within one window are all recorded, and then the gate is shut... */
  lemma FourCrashesShutTheGate(times: seq<Time>, begun: Time)
    requires |times| == 4 && forall i, j | 0 <= i <= j < |times| :: InWindow(times[i], times[j])
    requires forall x | x in times :: InWindow(x, begun)
    ensures var s := CrashAll(Fresh(times[0]), times);
      s.log == times && |Recent(s.log, begun)| == 4 && !Starts(s, begun)
  {
    CrashesAddUp(Fresh(times[0]), times);
    assert [] + times == times;
    AllRecent(times, begun);
  }

  lemma {:induction false} NoneRecent(failures: seq<Time>, now: Time)
    requires forall x | x in failures :: !InWindow(x, now)
    ensures Recent(failures, now) == []
  {
    if failures != [] { NoneRecent(failures[1..], now); }
  }

  /** Of failures in order, at least `n` are recent when the last `n` are, that is, when the oldest of those is. */
  lemma RecentIffNthNewest(failures: seq<Time>, now: Time, n: nat)
    requires Sorted(failures) && (forall i | 0 <= i < |failures| :: failures[i] <= now) && 0 < n <= |failures|
    ensures |Recent(failures, now)| >= n <==> InWindow(failures[|failures| - n], now)
  {
    var k := |failures| - n;
    if InWindow(failures[k], now) {
      LastRecent(failures, now, k);
    } else {
      FirstNotRecent(failures, now, k);
    }
  }

  lemma LastRecent(failures: seq<Time>, now: Time, k: nat)
    requires Sorted(failures) && (forall i | 0 <= i < |failures| :: failures[i] <= now)
    requires k < |failures| && InWindow(failures[k], now)
    ensures |Recent(failures, now)| >= |failures| - k
  {
    var last := failures[k..];
    assert failures == failures[..k] + last;
    RecentAppend(failures[..k], last, now);
    forall x | x in last ensures InWindow(x, now) {
      var i :| 0 <= i < |last| && last[i] == x;
      assert failures[k] <= failures[k + i];
    }
    AllRecent(last, now);
  }

  lemma FirstNotRecent(failures: seq<Time>, now: Time, k: nat)
    requires Sorted(failures) && (forall i | 0 <= i < |failures| :: failures[i] <= now)
    requires k < |failures| && !InWindow(failures[k], now)
    ensures |Recent(failures, now)| < |failures| - k
  {
    var first := failures[..k + 1];
    assert failures == first + failures[k + 1..];
    RecentAppend(first, failures[k + 1..], now);
    forall x | x in first ensures !InWindow(x, now) {
      var i :| 0 <= i < |first| && first[i] == x;
      assert failures[i] <= failures[k];
    }
    NoneRecent(first, now);
  }

  /** ...until the fourth-newest failure is ten minutes old: that alone decides, in every state of every run. */
  lemma GateReopens(at: Time, events: seq<Event>, begun: Time)
    requires Legal(Fresh(at), events) && Exec(Fresh(at), events).now <= begun
    ensures var s := Exec(Fresh(at), events); var n := |s.log|;
      Starts(s, begun) <==> n < 4 || s.log[n - 4] + 600_000_000_000 <= begun
  {
    GateOpensIff(at, events, begun);
    ExecKeepsInv(Fresh(at), events);
    var log := Exec(Fresh(at), events).log;
    if |log| >= CRASH_LOOP_COUNT {
      forall i | 0 <= i < |log| ensures log[i] <= begun { assert log[i] in log; }
      RecentIffNthNewest(log, begun, CRASH_LOOP_COUNT);
    }
  }

  // ---------------------------------------------------------------- the state file

  datatype Status = Status(count: nat, lastFailure: Time, lastError: string)

  const MAX_SUMMARY: nat := 2048

  function Bounded(summary: string): string {
    if |summary| <= MAX_SUMMARY then summary else summary[..MAX_SUMMARY]
  }

  class FailureFile {
    var failures: seq<Time>
    var lastError: string

    constructor ()
      ensures failures == [] && lastError == ""
    {
      failures, lastError := [], "";
    }

    /** `saved` says whether the new file could be written; otherwise the old one stays. */
    method RecordFailure(now: Time, summary: string, saved: bool) returns (ok: bool)
      modifies this
      ensures ok == saved
      ensures failures == if saved then Recent(old(failures), now) + [now] else old(failures)
      ensures lastError == if !saved then old(lastError) else if |summary| <= 2048 then summary else summary[..2048]
    {
      var recent := RecentFailures(failures, now);
      if !saved { return false; }
      failures := recent + [now];
      lastError := if |summary| <= MAX_SUMMARY then summary else summary[..MAX_SUMMARY];
      return true;
    }

    method ReadFailureStatus(now: Time) returns (status: Status)
      ensures status.count == |Recent(failures, now)|
      ensures status.count > 0 ==>
                var recent := Recent(failures, now);
                status.lastFailure == recent[|recent| - 1] && status.lastError == lastError
      ensures status.count == 0 ==> status.lastError == ""
    {
      var recent := RecentFailures(failures, now);
      status := Status(|recent|, 0, "");
      if |recent| > 0 {
        status := Status(|recent|, recent[|recent| - 1], lastError);
      }
    }

    /** `removed` says whether the file could be removed; otherwise it stays. */
    method ClearFailures(ghost s: State, ghost at: Time, removed: bool) returns (ok: bool)
      requires s.stored == failures
      modifies this
      ensures ok == removed && failures == Step(s, Clear(at, removed)).stored
      ensures failures == if removed then [] else old(failures)
      ensures lastError == if removed then "" else old(lastError)
    {
      if !removed { return false; }
      failures, lastError := [], "";
      return true;
    }

    /** The supervisor's gate, one worker run, and its record. */
    method Supervise(ghost s: State, begun: Time, ended: Time, interactive: bool, fails: bool, summary: string,
                     saved: bool)
      returns (started: bool)
      requires s.stored == failures && s.now <= begun <= ended
      modifies this
      ensures started == (interactive || Starts(s, begun))
      ensures started <==> interactive || |Recent(old(failures), begun)| < 4
      ensures failures == if !interactive && started && fails && saved then Recent(old(failures), ended) + [ended]
                          else old(failures)
      ensures failures == (if interactive then s else Step(s, Worker(begun, ended, fails, saved))).stored
      ensures lastError == if !interactive && started && fails && saved then Bounded(summary) else old(lastError)
    {
      if !interactive {
        var status := ReadFailureStatus(begun);
        if status.count >= CRASH_LOOP_COUNT { return false; }
      }
      if fails && !interactive {
        var _ := RecordFailure(ended, summary, saved);
      }
      return true;
    }
  }
}
