/** One process's refresher as the object its callers use, between the sidecar on disk and GitHub. */
module TokenRefresher {
  import opened Common
  import opened TokenRotation

  /** The sidecar file. */
  class Disk {
    var stored: Token

    constructor (stored: Token)
      ensures this.stored == stored
    {
      this.stored := stored;
    }
  }

  class GitHub {
    var issued: seq<Token>

    constructor (first: Token)
      ensures issued == [first]
    {
      issued := [first];
    }

    /** Only the live pair can be exchanged, and the exchange kills it. */
    method Exchange(tok: Token, expiry: Option<int>, hasRefresh: bool) returns (pair: Option<Token>)
      modifies this
      ensures if tok.gen + 1 == |old(issued)|
              then pair == Some(Token(|old(issued)|, expiry, hasRefresh)) && issued == old(issued) + [pair.value]
              else pair == None && issued == old(issued)
    {
      pair := None;
      if tok.gen + 1 == |issued| {
        pair := Some(Token(|issued|, expiry, hasRefresh));
        issued := issued + [pair.value];
      }
    }
  }

  /** What one try for the OS lock, the clock and the context say in one round of the wait. */
  datatype Try = Locked | Busy(late: bool, cancelled: bool) | Broken

  /** Everything the world answers to one call. */
  datatype World = World(
    resaved: bool,
    checkedAt: int,
    tries: seq<Try>,
    rereadAt: int,
    readable: bool,
    delivered: bool,
    expiry: Option<int>,
    hasRefresh: bool,
    saved: bool)

  /** The lock is obtained when a try succeeds before one fails or the wait is over. */
  predicate Obtains(tries: seq<Try>) {
    exists k | 0 <= k < |tries| :: tries[k].Locked? && forall j | 0 <= j < k :: tries[j] == Busy(false, false)
  }

  method LockTokenFile(tries: seq<Try>) returns (ok: bool)
    ensures ok <==> Obtains(tries)
    ensures ok <==> exists k | 0 <= k < |tries| ::
                      tries[k].Locked? && forall j | 0 <= j < k :: tries[j] == Busy(false, false)
  {
    var i := 0;
    while i < |tries|
      invariant 0 <= i <= |tries|
      invariant forall j | 0 <= j < i :: tries[j] == Busy(false, false)
    {
      match tries[i] {
        case Locked => return true;
        case Broken => return false;
        case Busy(late, cancelled) =>
          if late || cancelled { return false; }
      }
      i := i + 1;
    }
    return false;
  }

  predicate Due(s: State, p: Pid, w: World)
    requires p in s.procs
  {
    NeedsRefresh(s.procs[p].tok, w.checkedAt) && s.procs[p].tok.hasRefresh
  }

  predicate Adopts(s: State, p: Pid, w: World)
    requires p in s.procs
  {
    Due(s, p, w) && Obtains(w.tries) && w.readable && !NeedsRefresh(s.sidecar, w.rereadAt)
  }

  predicate Rotates(s: State, p: Pid, w: World)
    requires p in s.procs
  {
    Due(s, p, w) && Obtains(w.tries) && !Adopts(s, p, w) && w.delivered && s.procs[p].tok.gen + 1 == |s.issued|
  }

  predicate Resaves(s: State, p: Pid, w: World)
    requires p in s.procs
  {
    s.procs[p].unsaved && w.resaved
  }

  /** The token the process holds after the call. */
  function TokenAfter(s: State, p: Pid, w: World): Token
    requires p in s.procs
  {
    if Adopts(s, p, w) then s.sidecar
    else if Rotates(s, p, w) then Token(|s.issued|, w.expiry, w.hasRefresh)
    else s.procs[p].tok
  }

  /** What one undisturbed call by `p` leaves behind. */
  function AfterCall(s: State, p: Pid, w: World): State
    requires p in s.procs
  {
    var tok := TokenAfter(s, p, w);
    var unsaved := if Adopts(s, p, w) then false
                   else if Rotates(s, p, w) then !w.saved
                   else s.procs[p].unsaved && !w.resaved;
    s.(procs := s.procs[p := Process(tok, unsaved, Idle)],
       sidecar := if Rotates(s, p, w) && w.saved then tok else if Resaves(s, p, w) then s.procs[p].tok else s.sidecar,
       issued := if Rotates(s, p, w) then s.issued + [tok] else s.issued,
       now := if Due(s, p, w) && Obtains(w.tries) then w.rereadAt else w.checkedAt)
  }

  function Answer(s: State, p: Pid, w: World): Option<Token>
    requires p in s.procs
  {
    if !Due(s, p, w) || Adopts(s, p, w) || Rotates(s, p, w) then Some(TokenAfter(s, p, w)) else None
  }

  /** A schedule that leads from `start` to `s`. */
  ghost predicate Leads(start: State, run: seq<Action>, s: State) {
    Legal(start, run) && Exec(start, run) == s
  }

  lemma Take(start: State, run: seq<Action>, s: State, a: Action, s': State)
    requires Leads(start, run, s) && Enabled(s, a) && Apply(s, a) == s'
    ensures Leads(start, run + [a], s')
  {
    assert [a][1..] == [] && Legal(s', []);
    ExecAppend(start, run, [a]);
  }

  // The steps of one undisturbed call, in order.

  function ToCheck(p: Pid, w: World): seq<Action> {
    [Tick(w.checkedAt), Call(p, w.resaved), Check(p)]
  }

  function ToReread(p: Pid, w: World): seq<Action> {
    ToCheck(p, w) + [Acquire(p), Tick(w.rereadAt), Reread(p, w.readable)]
  }

  /** From the start of the call to where it is decided whether it answers. */
  function CallSteps(s: State, p: Pid, w: World): seq<Action>
    requires p in s.procs
  {
    if !Due(s, p, w) then ToCheck(p, w)
    else if !Obtains(w.tries) then ToCheck(p, w) + [GiveUp(p)]
    else if Adopts(s, p, w) then ToReread(p, w) + [Unlock(p)]
    else if Rotates(s, p, w) then
      ToReread(p, w) + [Rotate(p, w.expiry, w.hasRefresh), Save(p, w.saved), Unlock(p)]
    else
      ToReread(p, w) + [if w.delivered then Rotate(p, w.expiry, w.hasRefresh) else RotateError(p), Unlock(p)]
  }

  /** The lock may be with another process, unless this call obtains it. */
  predicate Ready(s: State, p: Pid, w: World) {
    && At(s, p, Idle) && s.now <= w.checkedAt <= w.rereadAt
    && (Due(s, p, w) && Obtains(w.tries) ==> s.lock.None?)
  }

  /** The state once the retried write is over and the clock has been read. */
  function AfterResave(s: State, p: Pid, w: World, pc: Pc): State
    requires p in s.procs
  {
    s.(procs := s.procs[p := Process(s.procs[p].tok, s.procs[p].unsaved && !w.resaved, pc)],
       sidecar := if Resaves(s, p, w) then s.procs[p].tok else s.sidecar, now := w.checkedAt)
  }

  lemma ReachesCheck(s: State, p: Pid, w: World)
    requires Ready(s, p, w)
    ensures Leads(s, ToCheck(p, w), AfterResave(s, p, w, if Due(s, p, w) then Locking else Returning))
  {
    var ticked := s.(now := w.checkedAt);
    assert Leads(s, [], s);
    Take(s, [], s, Tick(w.checkedAt), ticked);
    Take(s, [] + [Tick(w.checkedAt)], ticked, Call(p, w.resaved), AfterResave(s, p, w, Checking));
    var pc := if Due(s, p, w) then Locking else Returning;
    var run := [] + [Tick(w.checkedAt)] + [Call(p, w.resaved)];
    Take(s, run, AfterResave(s, p, w, Checking), Check(p), AfterResave(s, p, w, pc));
    assert run + [Check(p)] == ToCheck(p, w);
  }

  lemma ResavedIsDue(s: State, p: Pid, w: World)
    requires Ready(s, p, w) && Due(s, p, w)
    ensures NeedsRefresh(s.procs[p].tok, w.rereadAt)
  {}

  /** A process with something unsaved finds no pair worth adopting: the stored one is superseded. */
  lemma UnsavedAdoptsNone(s: State, p: Pid, w: World)
    requires Inv(s) && Ready(s, p, w) && Resaves(s, p, w)
    ensures !Adopts(s, p, w)
  {
    assert Held(s, p);
    assert Superseded(s, s.sidecar.gen);
  }

  /** The end of the call, but for the program counter and the lock. */
  function Ending(s: State, p: Pid, w: World, pc: Pc, lock: Option<Pid>): State
    requires p in s.procs
  {
    var end := AfterCall(s, p, w);
    end.(procs := end.procs[p := end.procs[p].(pc := pc)], lock := lock)
  }

  /** Where the call stands before it returns. */
  function Decided(s: State, p: Pid, w: World): State
    requires p in s.procs
  {
    Ending(s, p, w, if Answer(s, p, w).Some? then Returning else Failing, s.lock)
  }

  lemma KeepsToken(s: State, p: Pid, w: World)
    requires Ready(s, p, w) && !Due(s, p, w)
    ensures Leads(s, CallSteps(s, p, w), Decided(s, p, w))
  {
    ReachesCheck(s, p, w);
    assert AfterResave(s, p, w, Returning) == Decided(s, p, w);
  }

  lemma GivesUp(s: State, p: Pid, w: World)
    requires Ready(s, p, w) && Due(s, p, w) && !Obtains(w.tries)
    ensures Leads(s, CallSteps(s, p, w), Decided(s, p, w))
  {
    ReachesCheck(s, p, w);
    assert Apply(AfterResave(s, p, w, Locking), GiveUp(p)) == Decided(s, p, w);
    Take(s, ToCheck(p, w), AfterResave(s, p, w, Locking), GiveUp(p), Decided(s, p, w));
  }

  function Locked(s: State, p: Pid, w: World, pc: Pc): State
    requires p in s.procs
  {
    AfterResave(s, p, w, pc).(lock := Some(p), now := w.rereadAt)
  }

  lemma ReachesReread(s: State, p: Pid, w: World, t: State)
    requires Ready(s, p, w) && Due(s, p, w) && Obtains(w.tries)
    requires Apply(Locked(s, p, w, Rereading), Reread(p, w.readable)) == t
    ensures Leads(s, ToReread(p, w), t)
  {
    ReachesCheck(s, p, w);
    var held := AfterResave(s, p, w, Rereading).(lock := Some(p));
    var run := ToCheck(p, w);
    Take(s, run, AfterResave(s, p, w, Locking), Acquire(p), held);
    Take(s, run + [Acquire(p)], held, Tick(w.rereadAt), Locked(s, p, w, Rereading));
    run := run + [Acquire(p)] + [Tick(w.rereadAt)];
    Take(s, run, Locked(s, p, w, Rereading), Reread(p, w.readable), t);
    assert run + [Reread(p, w.readable)] == ToReread(p, w);
  }

  lemma Leaves(s: State, p: Pid, w: World, run: seq<Action>)
    requires p in s.procs && s.lock.None? && Leads(s, run, Ending(s, p, w, Unlocking(Answer(s, p, w).Some?), Some(p)))
    ensures Leads(s, run + [Unlock(p)], Decided(s, p, w))
  {
    var end := Ending(s, p, w, Unlocking(Answer(s, p, w).Some?), Some(p));
    assert Apply(end, Unlock(p)) == Decided(s, p, w);
    Take(s, run, end, Unlock(p), Decided(s, p, w));
  }

  lemma AdoptsStored(s: State, p: Pid, w: World)
    requires Inv(s) && Ready(s, p, w) && Adopts(s, p, w)
    ensures Leads(s, CallSteps(s, p, w), Decided(s, p, w))
  {
    if Resaves(s, p, w) { UnsavedAdoptsNone(s, p, w); }
    var t := Ending(s, p, w, Unlocking(true), Some(p));
    assert t == Apply(Locked(s, p, w, Rereading), Reread(p, w.readable));
    ReachesReread(s, p, w, t);
    Leaves(s, p, w, ToReread(p, w));
  }

  lemma ReachesGitHub(s: State, p: Pid, w: World)
    requires Ready(s, p, w) && Due(s, p, w) && Obtains(w.tries) && !Adopts(s, p, w)
    ensures Leads(s, ToReread(p, w), Locked(s, p, w, Rotating))
  {
    assert Apply(Locked(s, p, w, Rereading), Reread(p, w.readable)) == Locked(s, p, w, Rotating);
    ReachesReread(s, p, w, Locked(s, p, w, Rotating));
  }

  lemma IsRefused(s: State, p: Pid, w: World)
    requires Ready(s, p, w) && Due(s, p, w) && Obtains(w.tries) && !Adopts(s, p, w) && !Rotates(s, p, w)
    ensures Leads(s, CallSteps(s, p, w), Decided(s, p, w))
  {
    ReachesGitHub(s, p, w);
    var from, t := Locked(s, p, w, Rotating), Ending(s, p, w, Unlocking(false), Some(p));
    var a := if w.delivered then Rotate(p, w.expiry, w.hasRefresh) else RotateError(p);
    assert t == Apply(from, a);
    Take(s, ToReread(p, w), from, a, t);
    Leaves(s, p, w, ToReread(p, w) + [a]);
    assert ToReread(p, w) + [a] + [Unlock(p)] == CallSteps(s, p, w);
  }

  lemma IsAccepted(s: State, p: Pid, w: World)
    requires Ready(s, p, w) && Rotates(s, p, w)
    ensures Leads(s, CallSteps(s, p, w), Decided(s, p, w))
  {
    ReachesGitHub(s, p, w);
    var from, t := Locked(s, p, w, Rotating), Ending(s, p, w, Unlocking(true), Some(p));
    var a := Rotate(p, w.expiry, w.hasRefresh);
    var saving := Apply(from, a);
    Take(s, ToReread(p, w), from, a, saving);
    assert t == Apply(saving, Save(p, w.saved));
    Take(s, ToReread(p, w) + [a], saving, Save(p, w.saved), t);
    Leaves(s, p, w, ToReread(p, w) + [a] + [Save(p, w.saved)]);
    assert ToReread(p, w) + [a] + [Save(p, w.saved)] + [Unlock(p)] == CallSteps(s, p, w);
  }

  lemma CallDecides(s: State, p: Pid, w: World)
    requires Inv(s) && Ready(s, p, w)
    ensures Leads(s, CallSteps(s, p, w), Decided(s, p, w))
  {
    if !Due(s, p, w) {
      KeepsToken(s, p, w);
    } else if !Obtains(w.tries) {
      GivesUp(s, p, w);
    } else if Adopts(s, p, w) {
      AdoptsStored(s, p, w);
    } else if Rotates(s, p, w) {
      IsAccepted(s, p, w);
    } else {
      IsRefused(s, p, w);
    }
  }

  /**
   * One undisturbed call is a schedule of the protocol. It answers, with the token it then holds, when the
   * schedule leaves through `Returning`, and with an error when it leaves through `Failing`.
   */
  lemma CallIsSchedule(s: State, p: Pid, w: World)
    requires Inv(s) && Ready(s, p, w)
    ensures Leads(s, CallSteps(s, p, w) + [Return(p)], AfterCall(s, p, w)) && Inv(AfterCall(s, p, w))
    ensures Legal(s, CallSteps(s, p, w))
    ensures var last := Exec(s, CallSteps(s, p, w));
      && (Answer(s, p, w).Some? <==> At(last, p, Returning)) && (Answer(s, p, w).None? <==> At(last, p, Failing))
      && (Answer(s, p, w).Some? ==> Answer(s, p, w).value == last.procs[p].tok)
  {
    CallDecides(s, p, w);
    assert AfterCall(s, p, w) == Apply(Decided(s, p, w), Return(p));
    Take(s, CallSteps(s, p, w), Decided(s, p, w), Return(p), AfterCall(s, p, w));
    ExecInv(s, CallSteps(s, p, w) + [Return(p)]);
  }

  /** A token handed out without being due is the live one, however it was come by. */
  lemma AnswerIsLive(s: State, p: Pid, w: World)
    requires Inv(s) && Ready(s, p, w)
    ensures var s' := AfterCall(s, p, w);
      Answer(s, p, w).Some? && !NeedsRefresh(Answer(s, p, w).value, s'.now) ==>
        |s'.issued| > 0 && Answer(s, p, w).value == s'.issued[Live(s')]
  {
    CallIsSchedule(s, p, w);
    var s' := AfterCall(s, p, w);
    assert Sane(s', p);
    if !NeedsRefresh(s'.procs[p].tok, s'.now) { UndueIsLive(s', p); }
  }

  class Refresher {
    var tok: Token
    var unsaved: bool

    constructor (tok: Token)
      ensures this.tok == tok && !unsaved
    {
      this.tok, unsaved := tok, false;
    }

    /** The protocol state this call starts from or ends in, with everyone else as in `s`. */
    ghost predicate Matches(s: State, p: Pid, pc: Pc, disk: Disk, hub: GitHub)
      reads this, disk, hub
    {
      p in s.procs && s.procs[p] == Process(tok, unsaved, pc) && s.sidecar == disk.stored && s.issued == hub.issued
    }

    // The steps of a call. Between them other processes may do anything: each is the protocol's own step
    // from whatever state it is taken in.

    method RetrySave(disk: Disk, ghost hub: GitHub, ghost p: Pid, resaved: bool)
      modifies this`unsaved, disk
      ensures unsaved == (old(unsaved) && !resaved)
      ensures disk.stored == if old(unsaved) && resaved then tok else old(disk.stored)
      ensures forall s | old(Matches(s, p, Idle, disk, hub)) ::
                Matches(Apply(s, Call(p, resaved)), p, Checking, disk, hub)
    {
      if !unsaved { return; }
      if resaved {
        disk.stored := tok;
        unsaved := false;
      }
    }

    /** A token is handed out as it is only if it is GitHub's live one, or one that nothing can refresh. */
    method IsUsable(ghost disk: Disk, ghost hub: GitHub, ghost p: Pid, now: int) returns (usable: bool)
      ensures usable <==> tok.expiry.None? || now <= tok.expiry.value - 300 || !tok.hasRefresh
      ensures forall s | Matches(s, p, Checking, disk, hub) && s.now == now ::
                Matches(Apply(s, Check(p)), p, if usable then Returning else Locking, disk, hub)
      ensures forall s | Matches(s, p, Checking, disk, hub) && s.now == now && Inv(s) ::
                usable ==> IsLive(s, tok) || (!tok.hasRefresh && NeedsRefresh(tok, now))
    {
      usable := !NeedsRefresh(tok, now) || !tok.hasRefresh;
      forall s | Matches(s, p, Checking, disk, hub) && s.now == now && Inv(s)
        ensures !NeedsRefresh(tok, now) ==> IsLive(s, tok)
      {
        if !NeedsRefresh(tok, now) { UndueIsLive(s, p); }
      }
    }

    method AdoptStored(disk: Disk, ghost hub: GitHub, ghost p: Pid, readable: bool, now: int) returns (adopted: bool)
      modifies this
      ensures adopted <==> readable && (disk.stored.expiry.None? || now <= disk.stored.expiry.value - 300)
      ensures if adopted then tok == disk.stored && !unsaved else tok == old(tok) && unsaved == old(unsaved)
      ensures forall s | old(Matches(s, p, Rereading, disk, hub)) && s.now == now ::
                Matches(Apply(s, Reread(p, readable)), p, if adopted then Unlocking(true) else Rotating, disk, hub)
    {
      adopted := readable && !NeedsRefresh(disk.stored, now);
      if adopted { tok, unsaved := disk.stored, false; }
    }

    method Refresh(ghost disk: Disk, hub: GitHub, ghost p: Pid, delivered: bool, expiry: Option<int>, hasRefresh: bool)
      returns (ok: bool)
      modifies this, hub
      ensures ok <==> delivered && old(tok).gen + 1 == |old(hub.issued)|
      ensures if ok then
                tok == Token(|old(hub.issued)|, expiry, hasRefresh) && !unsaved && hub.issued == old(hub.issued) + [tok]
              else tok == old(tok) && unsaved == old(unsaved) && hub.issued == old(hub.issued)
      ensures forall s | old(Matches(s, p, Rotating, disk, hub)) ::
                Matches(Apply(s, if delivered then Rotate(p, expiry, hasRefresh) else RotateError(p)), p,
                        if ok then Saving else Unlocking(false), disk, hub)
    {
      if !delivered { return false; }
      var pair := hub.Exchange(tok, expiry, hasRefresh);
      if pair.None? { return false; }
      tok, unsaved := pair.value, false;
      return true;
    }

    method SaveNew(disk: Disk, ghost hub: GitHub, ghost p: Pid, saved: bool)
      modifies this`unsaved, disk
      ensures unsaved == !saved && disk.stored == if saved then tok else old(disk.stored)
      ensures forall s | old(Matches(s, p, Saving, disk, hub)) ::
                Matches(Apply(s, Save(p, saved)), p, Unlocking(true), disk, hub)
    {
      unsaved := !saved;
      if saved { disk.stored := tok; }
    }

    /** One call among the processes of `s`, when nothing happens between its steps. */
    method AccessToken(ghost s: State, ghost p: Pid, disk: Disk, hub: GitHub, w: World) returns (result: Option<Token>)
      requires Matches(s, p, Idle, disk, hub) && Inv(s) && Ready(s, p, w)
      modifies this, disk, hub
      ensures Matches(AfterCall(s, p, w), p, Idle, disk, hub) && result == Answer(s, p, w)
      ensures result.Some? ==> result.value == tok
      ensures var was, due := old(tok), NeedsRefresh(old(tok), w.checkedAt) && old(tok).hasRefresh;
        var stored := if old(unsaved) && w.resaved then was else old(disk.stored);
        && (!due ==> result == Some(was))
        && (due && !Obtains(w.tries) ==> result == None && tok == was)
        && (due && Obtains(w.tries) && w.readable && !NeedsRefresh(stored, w.rereadAt) ==>
              result == Some(stored) && !unsaved)
        && (due && Obtains(w.tries) && !(w.readable && !NeedsRefresh(stored, w.rereadAt)) ==>
              if w.delivered && was.gen + 1 == |old(hub.issued)| then
                result == Some(Token(|old(hub.issued)|, w.expiry, w.hasRefresh)) && unsaved == !w.saved
              else result == None && tok == was)
    {
      RetrySave(disk, hub, p, w.resaved);
      var usable := IsUsable(disk, hub, p, w.checkedAt);
      if usable { return Some(tok); }
      var locked := LockTokenFile(w.tries);
      if !locked { return None; }
      if Resaves(s, p, w) {
        ResavedIsDue(s, p, w);
        UnsavedAdoptsNone(s, p, w);
      }
      var adopted := AdoptStored(disk, hub, p, w.readable, w.rereadAt);
      if adopted { return Some(tok); }
      var ok := Refresh(disk, hub, p, w.delivered, w.expiry, w.hasRefresh);
      if !ok { return None; }
      SaveNew(disk, hub, p, w.saved);
      return Some(tok);
    }
  }
}
