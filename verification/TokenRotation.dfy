/**
 * GitHub user-token rotation by several processes sharing one sidecar file. GitHub kills the old pair
 * the moment it issues a new one, so a process can hold a token that is already dead.
 */
module TokenRotation {
  import opened Common

  type Pid = nat

  /** Seconds before expiry at which a token counts as due. */
  const SKEW: int := 300

  /** An access and refresh pair, numbered in the order GitHub issued it. No expiry means never due. */
  datatype Token = Token(gen: nat, expiry: Option<int>, hasRefresh: bool)

  predicate NeedsRefresh(t: Token, now: int) {
    t.expiry.Some? && now > t.expiry.value - SKEW
  }

  datatype Pc =
    | Idle
    | Checking
    | Locking
    | Rereading
    | Rotating
    | Saving
    | Unlocking(ok: bool)
    | Returning
    | Failing

  /** `r.mu` lets one AccessToken call of a process run at a time, so one program counter is enough. */
  datatype Process = Process(tok: Token, unsaved: bool, pc: Pc)

  datatype State = State(procs: map<Pid, Process>, sidecar: Token, lock: Option<Pid>, issued: seq<Token>, now: int)

  datatype Action =
    | Tick(to: int)
    | Start(p: Pid)
    | Die(p: Pid)
    | Call(p: Pid, saved: bool)
    | Check(p: Pid)
    | Acquire(p: Pid)
    | GiveUp(p: Pid)
    | Reread(p: Pid, readable: bool)
    | Rotate(p: Pid, expiry: Option<int>, hasRefresh: bool)
    | RotateError(p: Pid)
    | Save(p: Pid, saved: bool)
    | Unlock(p: Pid)
    | Return(p: Pid)

  predicate At(s: State, p: Pid, pc: Pc) {
    p in s.procs && s.procs[p].pc == pc
  }

  predicate Enabled(s: State, a: Action) {
    match a
    case Tick(to) => to >= s.now
    case Start(p) => p !in s.procs
    case Die(p) => p in s.procs && !Carrying(s.procs[p])
    case Call(p, _) => At(s, p, Idle)
    case Check(p) => At(s, p, Checking)
    case Acquire(p) => At(s, p, Locking) && s.lock.None?
    case GiveUp(p) => At(s, p, Locking)
    case Reread(p, _) => At(s, p, Rereading)
    case Rotate(p, _, _) => At(s, p, Rotating)
    case RotateError(p) => At(s, p, Rotating)
    case Save(p, _) => At(s, p, Saving)
    case Unlock(p) => p in s.procs && s.procs[p].pc.Unlocking?
    case Return(p) => At(s, p, Returning) || At(s, p, Failing)
  }

  function Put(s: State, p: Pid, q: Process): State {
    s.(procs := s.procs[p := q])
  }

  function Goto(s: State, p: Pid, pc: Pc): State
    requires p in s.procs
  {
    Put(s, p, s.procs[p].(pc := pc))
  }

  function Apply(s: State, a: Action): State
    requires Enabled(s, a)
  {
    match a
    case Tick(to) => s.(now := to)
    case Start(p) => Put(s, p, Process(s.sidecar, false, Idle))
    case Die(p) => s.(procs := s.procs - {p}, lock := if s.lock == Some(p) then None else s.lock)
    case Call(p, saved) =>
      var q := s.procs[p];
      Put(s, p, q.(pc := Checking, unsaved := q.unsaved && !saved))
        .(sidecar := if q.unsaved && saved then q.tok else s.sidecar)
    case Check(p) =>
      var q := s.procs[p];
      Goto(s, p, if !NeedsRefresh(q.tok, s.now) || !q.tok.hasRefresh then Returning else Locking)
    case Acquire(p) => Goto(s, p, Rereading).(lock := Some(p))
    case GiveUp(p) => Goto(s, p, Failing)
    case Reread(p, readable) =>
      if readable && !NeedsRefresh(s.sidecar, s.now) then Put(s, p, Process(s.sidecar, false, Unlocking(true)))
      else Goto(s, p, Rotating)
    case Rotate(p, expiry, hasRefresh) =>
      if s.procs[p].tok.gen + 1 == |s.issued| then
        var pair := Token(|s.issued|, expiry, hasRefresh);
        Put(s, p, Process(pair, false, Saving)).(issued := s.issued + [pair])
      else Goto(s, p, Unlocking(false))
    case RotateError(p) => Goto(s, p, Unlocking(false))
    case Save(p, saved) =>
      Put(s, p, s.procs[p].(unsaved := !saved, pc := Unlocking(true)))
        .(sidecar := if saved then s.procs[p].tok else s.sidecar)
    case Unlock(p) => Goto(s, p, if s.procs[p].pc.ok then Returning else Failing).(lock := None)
    case Return(p) => Goto(s, p, Idle)
  }

  predicate Init(s: State) {
    s.procs == map[] && s.lock.None? && s.sidecar.gen == 0 && s.issued == [s.sidecar]
  }

  /** A schedule that every step of allows the next. */
  predicate Legal(s: State, run: seq<Action>)
    decreases |run|
  {
    run == [] || (Enabled(s, run[0]) && Legal(Apply(s, run[0]), run[1..]))
  }

  function Exec(s: State, run: seq<Action>): State
    requires Legal(s, run)
    decreases |run|
  {
    if run == [] then s else Exec(Apply(s, run[0]), run[1..])
  }

  // ---------------------------------------------------------------- the invariant

  /** The process is the only place besides GitHub that knows its pair. */
  predicate Carrying(q: Process) {
    q.unsaved || q.pc.Saving?
  }

  function Live(s: State): nat
    requires |s.issued| > 0
  {
    |s.issued| - 1
  }

  predicate IsLive(s: State, t: Token) {
    |s.issued| > 0 && t == s.issued[Live(s)]
  }

  predicate Issued(s: State, t: Token) {
    t.gen < |s.issued| && s.issued[t.gen] == t
  }

  predicate InLock(pc: Pc) {
    pc.Rereading? || pc.Rotating? || pc.Saving? || pc.Unlocking?
  }

  predicate Superseded(s: State, g: nat) {
    g < |s.issued| && NeedsRefresh(s.issued[g], s.now)
  }

  /** What holds of one process on its own. */
  predicate Sane(s: State, p: Pid) {
    p in s.procs ==>
      && Issued(s, s.procs[p].tok)
      && (InLock(s.procs[p].pc) ==> s.lock == Some(p))
      && (s.procs[p].pc.Locking? || s.procs[p].pc.Rereading? || s.procs[p].pc.Rotating? ==>
            NeedsRefresh(s.procs[p].tok, s.now))
  }

  /** One place, and one only, holds the live pair for everyone else. */
  predicate Held(s: State, p: Pid) {
    p in s.procs && Carrying(s.procs[p]) ==>
      && s.sidecar.gen + 1 < |s.issued| && s.procs[p].tok.gen + 1 == |s.issued|
      && forall q | q in s.procs && q != p :: s.procs[q].tok.gen + 1 < |s.issued| && !Carrying(s.procs[q])
  }

  ghost predicate Inv(s: State) {
    && Issued(s, s.sidecar)
    && (forall p | p in s.procs :: Sane(s, p))
    && (forall g | 0 <= g && g + 1 < |s.issued| :: Superseded(s, g))
    && (forall p | p in s.procs :: Held(s, p))
    && (s.sidecar.gen + 1 < |s.issued| ==> exists p :: p in s.procs && Carrying(s.procs[p]))
  }

  lemma InitInv(s: State)
    requires Init(s)
    ensures Inv(s)
  {}

  /** The heart of the argument: only a due pair is rotated, and only its sole holder can do it. */
  lemma RotateKeeps(s: State, a: Action)
    requires Inv(s) && a.Rotate? && Enabled(s, a)
    ensures Inv(Apply(s, a))
  {
    var s', p := Apply(s, a), a.p;
    assert Sane(s, p);
    forall q | q in s'.procs ensures Sane(s', q) { assert Sane(s, q); }
    forall g | 0 <= g && g + 1 < |s'.issued| ensures Superseded(s', g) {
      if g + 1 < |s.issued| { assert Superseded(s, g); }
    }
    forall q | q in s'.procs ensures Held(s', q) {
      assert Held(s, q) && Held(s, p);
      if s'.issued != s.issued && q == p {
        forall r | r in s'.procs && r != p ensures s'.procs[r].tok.gen + 1 < |s'.issued| && !Carrying(s'.procs[r]) {
          assert Sane(s, r) && Held(s, r);
        }
      }
    }
    if s'.issued != s.issued {
      assert Carrying(s'.procs[p]);
    } else if s.sidecar.gen + 1 < |s.issued| {
      var q :| q in s.procs && Carrying(s.procs[q]);
      assert q in s'.procs && Carrying(s'.procs[q]);
    }
  }

  /** Every step of every process keeps the invariant. */
  lemma StepKeeps(s: State, a: Action)
    requires Inv(s) && Enabled(s, a)
    ensures Inv(Apply(s, a))
  {
    if a.Rotate? {
      RotateKeeps(s, a);
    } else {
      var s' := Apply(s, a);
      assert s'.issued == s.issued;
      SidecarKept(s, a);
      forall q | q in s'.procs ensures Sane(s', q) { SaneKept(s, a, q); }
      forall g | 0 <= g && g + 1 < |s'.issued| ensures Superseded(s', g) { assert Superseded(s, g); }
      forall q | q in s'.procs ensures Held(s', q) { HeldKept(s, a, q); }
      CarrierKept(s, a);
    }
  }

  /** A write, locked or not, only ever puts the live pair into the sidecar. */
  lemma SidecarKept(s: State, a: Action)
    requires Inv(s) && Enabled(s, a)
    ensures var s' := Apply(s, a);
      s'.sidecar == s.sidecar || (s.sidecar.gen < s'.sidecar.gen && s'.sidecar.gen == Live(s) && Issued(s, s'.sidecar))
  {
    if a.Call? || a.Save? { assert Sane(s, a.p) && Held(s, a.p); }
  }

  /** Outside a rotation a process keeps its token or takes the sidecar's, and starts no carrying. */
  lemma TokenKept(s: State, a: Action, q: Pid)
    requires Inv(s) && Enabled(s, a) && !a.Rotate? && q in Apply(s, a).procs
    ensures var after := Apply(s, a).procs[q];
      && (after.tok == s.sidecar || (q in s.procs && after.tok == s.procs[q].tok))
      && (Carrying(after) ==> q in s.procs && Carrying(s.procs[q]) && after.tok == s.procs[q].tok)
  {}

  lemma SaneKept(s: State, a: Action, q: Pid)
    requires Issued(s, s.sidecar) && forall p | p in s.procs :: Sane(s, p)
    requires Enabled(s, a) && !a.Rotate? && q in Apply(s, a).procs
    ensures Sane(Apply(s, a), q)
  {
    assert Sane(s, q);
  }

  lemma HeldKept(s: State, a: Action, q: Pid)
    requires Inv(s) && Enabled(s, a) && !a.Rotate? && q in Apply(s, a).procs
    ensures Held(Apply(s, a), q)
  {
    var s' := Apply(s, a);
    if Carrying(s'.procs[q]) {
      TokenKept(s, a, q);
      assert Held(s, q);
      CarrierWrites(s, a, q);
      forall r | r in s'.procs && r != q ensures s'.procs[r].tok.gen + 1 < |s'.issued| && !Carrying(s'.procs[r]) {
        TokenKept(s, a, r);
      }
    }
  }

  /** While one process carries the live pair, nobody else writes the sidecar. */
  lemma CarrierWrites(s: State, a: Action, q: Pid)
    requires Inv(s) && Enabled(s, a) && !a.Rotate? && q in Apply(s, a).procs && Carrying(Apply(s, a).procs[q])
    ensures Apply(s, a).sidecar == s.sidecar
  {
    TokenKept(s, a, q);
    assert Held(s, q);
    if a.Call? || a.Save? { assert a.p == q || !Carrying(s.procs[a.p]); }
  }

  lemma CarrierKept(s: State, a: Action)
    requires Inv(s) && Enabled(s, a) && !a.Rotate?
    ensures var s' := Apply(s, a);
      s'.sidecar.gen + 1 < |s'.issued| ==> exists p :: p in s'.procs && Carrying(s'.procs[p])
  {
    var s' := Apply(s, a);
    if s'.sidecar.gen + 1 < |s'.issued| {
      var p :| p in s.procs && Carrying(s.procs[p]);
      assert Held(s, p) && Sane(s, p);
      if a.Reread? && a.p == p { assert Superseded(s, s.sidecar.gen); }
      assert p in s'.procs && Carrying(s'.procs[p]);
    }
  }

  // ---------------------------------------------------------------- whole runs

  lemma {:induction false} ExecInv(s: State, run: seq<Action>)
    requires Inv(s) && Legal(s, run)
    ensures Inv(Exec(s, run))
    decreases |run|
  {
    if run != [] {
      StepKeeps(s, run[0]);
      ExecInv(Apply(s, run[0]), run[1..]);
    }
  }

  lemma {:induction false} ExecAppend(s: State, run: seq<Action>, more: seq<Action>)
    requires Legal(s, run) && Legal(Exec(s, run), more)
    ensures Legal(s, run + more) && Exec(s, run + more) == Exec(Exec(s, run), more)
    decreases |run|
  {
    if run == [] {
      assert run + more == more;
    } else {
      assert (run + more)[1..] == run[1..] + more;
      ExecAppend(Apply(s, run[0]), run[1..], more);
    }
  }

  /** The sidecar never goes back to an older pair. */
  lemma {:induction false} SidecarNeverGoesBack(start: State, before: seq<Action>, after: seq<Action>)
    requires Init(start) && Legal(start, before) && Legal(Exec(start, before), after)
    ensures Exec(start, before).sidecar.gen <= Exec(Exec(start, before), after).sidecar.gen
  {
    InitInv(start);
    ExecInv(start, before);
    SidecarOnlyAdvances(Exec(start, before), after);
  }

  lemma {:induction false} SidecarOnlyAdvances(s: State, run: seq<Action>)
    requires Inv(s) && Legal(s, run)
    ensures s.sidecar.gen <= Exec(s, run).sidecar.gen
    decreases |run|
  {
    if run != [] {
      SidecarKept(s, run[0]);
      StepKeeps(s, run[0]);
      SidecarOnlyAdvances(Apply(s, run[0]), run[1..]);
    }
  }

  /**
   * The live pair is never lost: either the sidecar holds it and no process has anything unsaved, or
   * exactly one process carries it and everyone else is behind.
   */
  lemma LivePairNeverLost(start: State, run: seq<Action>)
    requires Init(start) && Legal(start, run)
    ensures var s := Exec(start, run);
      && |s.issued| > 0
      && (s.sidecar.gen == Live(s) <==> forall p | p in s.procs :: !Carrying(s.procs[p]))
      && (s.sidecar.gen < Live(s) <==> exists p :: p in s.procs && Carrying(s.procs[p]))
      && (forall p, q | p in s.procs && q in s.procs && Carrying(s.procs[p]) && q != p ::
            s.procs[p].tok.gen == Live(s) && s.procs[q].tok.gen < Live(s) && !Carrying(s.procs[q]))
      && (forall p | p in s.procs && Carrying(s.procs[p]) :: s.procs[p].tok == s.issued[Live(s)])
      && (s.sidecar.gen == Live(s) ==> s.sidecar == s.issued[Live(s)])
  {
    InitInv(start);
    ExecInv(start, run);
    var s := Exec(start, run);
    forall p | p in s.procs && Carrying(s.procs[p])
      ensures s.sidecar.gen < Live(s) && s.procs[p].tok == s.issued[Live(s)] {
      assert Held(s, p) && Sane(s, p);
    }
    forall p, q | p in s.procs && q in s.procs && Carrying(s.procs[p]) && q != p
      ensures s.procs[p].tok.gen == Live(s) && s.procs[q].tok.gen < Live(s) && !Carrying(s.procs[q]) {
      assert Held(s, p);
    }
  }

  /** Whatever wrote it, the sidecar only changes to the pair that is live at that moment. */
  lemma SavesOnlyLive(start: State, run: seq<Action>, a: Action)
    requires Init(start) && Legal(start, run) && Enabled(Exec(start, run), a)
    ensures var s := Exec(start, run); var s' := Apply(s, a);
      s'.sidecar != s.sidecar ==> |s.issued| > 0 && s'.sidecar == s.issued[Live(s)] && s.sidecar.gen < Live(s)
  {
    InitInv(start);
    ExecInv(start, run);
    SidecarKept(Exec(start, run), a);
  }

  lemma UndueIsLive(s: State, p: Pid)
    requires Inv(s) && p in s.procs && !NeedsRefresh(s.procs[p].tok, s.now)
    ensures IsLive(s, s.procs[p].tok)
  {
    assert Sane(s, p);
    assert s.procs[p].tok.gen < Live(s) ==> Superseded(s, s.procs[p].tok.gen);
  }

  /** A token any process would hand out without finding it due is the live one at that moment. */
  lemma UndueTokenIsLive(start: State, run: seq<Action>, p: Pid)
    requires Init(start) && Legal(start, run)
    requires p in Exec(start, run).procs && !NeedsRefresh(Exec(start, run).procs[p].tok, Exec(start, run).now)
    ensures var s := Exec(start, run); IsLive(s, s.procs[p].tok)
  {
    InitInv(start);
    ExecInv(start, run);
    UndueIsLive(Exec(start, run), p);
  }

  /** Two processes never work under the file lock together. */
  lemma OneUnderLock(start: State, run: seq<Action>, p: Pid, q: Pid)
    requires Init(start) && Legal(start, run)
    requires var s := Exec(start, run); p in s.procs && q in s.procs && InLock(s.procs[p].pc) && InLock(s.procs[q].pc)
    ensures p == q
  {
    InitInv(start);
    ExecInv(start, run);
    assert Sane(Exec(start, run), p) && Sane(Exec(start, run), q);
  }

  /**
   * Exactly when a refresh request succeeds: the process has the pair nobody else saved, or its own
   * token is the sidecar's and no other process is still to save a newer one.
   */
  lemma RefreshAcceptedIff(start: State, run: seq<Action>, p: Pid, expiry: Option<int>, hasRefresh: bool)
    requires Init(start) && Legal(start, run) && Enabled(Exec(start, run), Rotate(p, expiry, hasRefresh))
    ensures var s := Exec(start, run); var s' := Apply(s, Rotate(p, expiry, hasRefresh));
      && (s'.issued != s.issued <==>
            s.procs[p].unsaved || (s.procs[p].tok == s.sidecar && forall q | q in s.procs :: !s.procs[q].unsaved))
      && (s'.issued != s.issued ==> s'.procs[p].tok == Token(|s.issued|, expiry, hasRefresh) && s'.procs[p].pc.Saving?)
      && (s'.issued == s.issued ==> s'.procs[p] == s.procs[p].(pc := Unlocking(false)))
  {
    InitInv(start);
    ExecInv(start, run);
    var s := Exec(start, run);
    assert Sane(s, p) && Held(s, p);
    if s.sidecar.gen < Live(s) {
      var q :| q in s.procs && Carrying(s.procs[q]);
      assert Held(s, q) && Sane(s, q);
    }
    forall q | q in s.procs && s.procs[q].unsaved ensures s.sidecar.gen < Live(s) { assert Held(s, q); }
  }

  ghost predicate Reachable(start: State, s: State) {
    exists run :: Legal(start, run) && Exec(start, run) == s
  }

  lemma Onward(start: State, s: State, a: Action)
    requires Reachable(start, s) && Enabled(s, a)
    ensures Reachable(start, Apply(s, a))
  {
    var run :| Legal(start, run) && Exec(start, run) == s;
    assert [a][1..] == [] && Legal(Apply(s, a), []);
    ExecAppend(start, run, [a]);
  }

  // ---------------------------------------------------------------- a refresh that GitHub refuses

  /** A due process with a due sidecar reaches the refresh request with the token it started with. */
  lemma AsksWithOwnToken(start: State, s: State, p: Pid)
    requires Reachable(start, s) && At(s, p, Idle) && s.lock.None? && !s.procs[p].unsaved
    requires NeedsRefresh(s.procs[p].tok, s.now) && s.procs[p].tok.hasRefresh && NeedsRefresh(s.sidecar, s.now)
    ensures Reachable(start, s.(procs := s.procs[p := s.procs[p].(pc := Rotating)], lock := Some(p)))
  {
    var s1 := Apply(s, Call(p, false)); Onward(start, s, Call(p, false));
    var s2 := Apply(s1, Check(p)); Onward(start, s1, Check(p));
    var s3 := Apply(s2, Acquire(p)); Onward(start, s2, Acquire(p));
    var s4 := Apply(s3, Reread(p, true)); Onward(start, s3, Reread(p, true));
    assert s4 == s.(procs := s.procs[p := s.procs[p].(pc := Rotating)], lock := Some(p));
  }

  /** A rotation by `p`, from a moment when nothing is locked, to a saved new pair. */
  lemma RotateUndisturbed(start: State, s: State, p: Pid, expiry: Option<int>, hasRefresh: bool)
    requires Reachable(start, s) && At(s, p, Idle) && s.lock.None? && !s.procs[p].unsaved
    requires s.procs[p].tok == s.sidecar && s.sidecar.gen + 1 == |s.issued|
    requires NeedsRefresh(s.sidecar, s.now) && s.sidecar.hasRefresh
    ensures var pair := Token(|s.issued|, expiry, hasRefresh);
      Reachable(start, s.(
        procs := s.procs[p := Process(pair, false, Idle)], sidecar := pair, issued := s.issued + [pair]))
  {
    var pair := Token(|s.issued|, expiry, hasRefresh);
    AsksWithOwnToken(start, s, p);
    var s4 := s.(procs := s.procs[p := s.procs[p].(pc := Rotating)], lock := Some(p));
    Onward(start, s4, Rotate(p, expiry, hasRefresh));
    var s5 := s.(procs := s.procs[p := Process(pair, false, Saving)], lock := Some(p), issued := s.issued + [pair]);
    assert Apply(s4, Rotate(p, expiry, hasRefresh)) == s5;
    SavesAndLeaves(start, s5, p);
    var idle := Process(pair, false, Idle);
    assert s.procs[p := Process(pair, false, Saving)][p := idle] == s.procs[p := idle];
  }

  /** From the new pair in hand to the end of the call. */
  lemma SavesAndLeaves(start: State, s5: State, p: Pid)
    requires Reachable(start, s5) && At(s5, p, Saving)
    ensures var pair := s5.procs[p].tok;
      Reachable(start, s5.(procs := s5.procs[p := Process(pair, false, Idle)], sidecar := pair, lock := None))
  {
    var pair := s5.procs[p].tok;
    Onward(start, s5, Save(p, true));
    var s6 := s5.(procs := s5.procs[p := Process(pair, false, Unlocking(true))], sidecar := pair);
    assert Apply(s5, Save(p, true)) == s6;
    Onward(start, s6, Unlock(p));
    var s7 := s6.(procs := s5.procs[p := Process(pair, false, Returning)], lock := None);
    assert Apply(s6, Unlock(p)) == s7;
    Onward(start, s7, Return(p));
    assert Apply(s7, Return(p)) == s7.(procs := s5.procs[p := Process(pair, false, Idle)]);
  }

  /**
   * The refresh uses the process's own pair even after reading a newer one. Process 0 rotates and
   * saves; once that pair is due in turn, process 1 reads the live, refreshable pair, asks with its
   * own dead one, and is refused.
   */
  lemma StaleRefreshRefused()
    ensures exists start, s ::
      && Init(start) && Reachable(start, s) && Enabled(s, Rotate(1, None, true))
      && |s.issued| > 0 && s.sidecar == s.issued[Live(s)] && s.sidecar.hasRefresh && s.lock == Some(1)
      && Behind(s, 1) && NeedsRefresh(s.sidecar, s.now)
      && Apply(s, Rotate(1, None, true)) == Goto(s, 1, Unlocking(false))
  {
    var first, second := Token(0, Some(1000), true), Token(1, Some(2000), true);
    var start := State(map[], first, None, [first], 800);
    assert Legal(start, []) && Exec(start, []) == start;
    Onward(start, start, Start(0));
    var s1 := Apply(start, Start(0));
    Onward(start, s1, Start(1));
    var s2 := Apply(s1, Start(1));
    RotateUndisturbed(start, s2, 0, Some(2000), true);
    var s3 := s2.(
      procs := s2.procs[0 := Process(second, false, Idle)], sidecar := second, issued := [first] + [second]);
    Onward(start, s3, Tick(1800));
    var s4 := Apply(s3, Tick(1800));
    AsksWithOwnToken(start, s4, 1);
    var s5 := s4.(procs := s4.procs[1 := Process(first, false, Rotating)], lock := Some(1));
    assert Reachable(start, s5);
    assert Apply(s5, Rotate(1, None, true)) == Goto(s5, 1, Unlocking(false));
  }

  // ---------------------------------------------------------------- a process that stays refused

  /** GitHub has killed the pair of `p`. */
  predicate Behind(s: State, p: Pid) {
    p in s.procs && s.procs[p].tok.gen + 1 < |s.issued|
  }

  /** Process `p` reads a sidecar that is not due. */
  predicate Rescues(s: State, a: Action, p: Pid) {
    a == Reread(p, true) && !NeedsRefresh(s.sidecar, s.now)
  }

  predicate Rescued(s: State, run: seq<Action>, p: Pid)
    requires Legal(s, run)
    decreases |run|
  {
    run != [] && (Rescues(s, run[0], p) || Rescued(Apply(s, run[0]), run[1..], p))
  }

  lemma UndueSidecarIsLive(s: State)
    requires Inv(s) && !NeedsRefresh(s.sidecar, s.now)
    ensures s.sidecar.gen + 1 == |s.issued|
  {
    assert s.sidecar.gen + 1 < |s.issued| ==> Superseded(s, s.sidecar.gen);
  }

  lemma BehindStep(s: State, a: Action, p: Pid)
    requires Inv(s) && Enabled(s, a) && Behind(s, p) && a != Die(p)
    ensures var s' := Apply(s, a);
      && p in s'.procs
      && (a.Rotate? && a.p == p ==> s' == Goto(s, p, Unlocking(false)))
      && (!Rescues(s, a, p) ==> Behind(s', p) && s'.procs[p].tok == s.procs[p].tok)
      && (Rescues(s, a, p) ==> s.procs[p].tok.gen < s'.procs[p].tok.gen)
  {
    assert Held(s, p);
    if Rescues(s, a, p) { UndueSidecarIsLive(s); }
  }

  lemma TokenAdvances(s: State, a: Action, p: Pid)
    requires Inv(s) && Enabled(s, a) && p in s.procs && a != Die(p)
    ensures p in Apply(s, a).procs && s.procs[p].tok.gen <= Apply(s, a).procs[p].tok.gen
  {
    assert Sane(s, p);
    if Rescues(s, a, p) { UndueSidecarIsLive(s); }
  }

  lemma {:induction false} TokenOnlyAdvances(s: State, run: seq<Action>, p: Pid)
    requires Inv(s) && Legal(s, run) && p in s.procs && Die(p) !in run
    ensures p in Exec(s, run).procs && s.procs[p].tok.gen <= Exec(s, run).procs[p].tok.gen
    decreases |run|
  {
    if run != [] {
      StepKeeps(s, run[0]);
      TokenAdvances(s, run[0], p);
      TokenOnlyAdvances(Apply(s, run[0]), run[1..], p);
    }
  }

  lemma {:induction false} BehindUntilRescued(s: State, run: seq<Action>, p: Pid)
    requires Inv(s) && Legal(s, run) && Behind(s, p) && Die(p) !in run
    ensures var s' := Exec(s, run);
      && p in s'.procs && (s'.procs[p].tok == s.procs[p].tok <==> !Rescued(s, run, p))
      && (!Rescued(s, run, p) ==> Behind(s', p))
    decreases |run|
  {
    if run != [] {
      StepKeeps(s, run[0]);
      BehindStep(s, run[0], p);
      if Rescues(s, run[0], p) {
        TokenOnlyAdvances(Apply(s, run[0]), run[1..], p);
      } else {
        BehindUntilRescued(Apply(s, run[0]), run[1..], p);
      }
    }
  }

  /**
   * Once its pair is dead, a process keeps it under every schedule until it reads a sidecar that is not
   * due, and then only; as long as it has not, GitHub refuses each of its requests.
   */
  lemma RefusedUntilRescued(start: State, before: seq<Action>, p: Pid, after: seq<Action>)
    requires Init(start) && Legal(start, before) && Behind(Exec(start, before), p)
    requires Legal(Exec(start, before), after) && Die(p) !in after
    ensures var s := Exec(start, before); var s' := Exec(s, after);
      && p in s'.procs && (s'.procs[p].tok == s.procs[p].tok <==> !Rescued(s, after, p))
      && (!Rescued(s, after, p) ==>
            forall expiry, hasRefresh | Enabled(s', Rotate(p, expiry, hasRefresh)) ::
              Apply(s', Rotate(p, expiry, hasRefresh)) == Goto(s', p, Unlocking(false)))
  {
    InitInv(start);
    ExecInv(start, before);
    BehindUntilRescued(Exec(start, before), after, p);
  }

  predicate RotatesOther(a: Action, p: Pid) {
    a.Rotate? && a.p != p
  }

  lemma {:induction false} SidecarStaysDue(s: State, run: seq<Action>, p: Pid)
    requires Inv(s) && Legal(s, run) && Behind(s, p) && Die(p) !in run
    requires s.sidecar.gen + 1 == |s.issued| && NeedsRefresh(s.sidecar, s.now)
    requires forall k | 0 <= k < |run| :: !RotatesOther(run[k], p)
    ensures var s' := Exec(s, run);
      !Rescued(s, run, p) && s'.sidecar == s.sidecar && s'.issued == s.issued && NeedsRefresh(s'.sidecar, s'.now)
    decreases |run|
  {
    if run != [] {
      var a := run[0];
      assert !RotatesOther(a, p);
      StepKeeps(s, a);
      BehindStep(s, a, p);
      SidecarKept(s, a);
      SidecarStaysDue(Apply(s, a), run[1..], p);
    }
  }

  /**
   * The refusal lasts: from a state with a dead pair and a sidecar whose live pair is due, as long as no
   * other process asks for a new pair, nothing is ever issued again, however often `p` tries.
   */
  lemma RefusedForever(start: State, before: seq<Action>, p: Pid, after: seq<Action>)
    requires Init(start) && Legal(start, before) && Behind(Exec(start, before), p)
    requires var s := Exec(start, before); s.sidecar.gen + 1 == |s.issued| && NeedsRefresh(s.sidecar, s.now)
    requires Legal(Exec(start, before), after) && Die(p) !in after
    requires forall k | 0 <= k < |after| :: !RotatesOther(after[k], p)
    ensures var s := Exec(start, before); var s' := Exec(s, after);
      && s'.issued == s.issued && s'.sidecar == s.sidecar && p in s'.procs && s'.procs[p].tok == s.procs[p].tok
      && forall expiry, hasRefresh | Enabled(s', Rotate(p, expiry, hasRefresh)) ::
           Apply(s', Rotate(p, expiry, hasRefresh)) == Goto(s', p, Unlocking(false))
  {
    InitInv(start);
    ExecInv(start, before);
    SidecarStaysDue(Exec(start, before), after, p);
    RefusedUntilRescued(start, before, p, after);
  }
}
