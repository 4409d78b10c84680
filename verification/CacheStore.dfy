/** The cache store: upload rows, entry rows and the blob folders they name. Each operation is atomic. */
module CacheStore {
  import opened Common

  type Id = int
  type Folder = map<int, Bytes>

  /** What identifies an upload or an entry besides its id. */
  datatype Slot = Slot(key: string, version: string, scope: string, repo: string)

  datatype Upload = Upload(slot: Slot, started: nat, finished: nat)

  datatype Entry = Entry(slot: Slot, partCount: nat, updated: int, lastUsed: int)

  datatype Store = Store(uploads: map<Id, Upload>, entries: map<Id, Entry>, blobs: map<Id, Folder>)

  function FolderOf(s: Store, id: Id): Folder {
    if id in s.blobs then s.blobs[id] else map[]
  }

  /** The part indices a complete upload of `n` parts has. */
  function Range(n: nat): (r: set<int>)
    ensures |r| == n && forall i :: i in r <==> 0 <= i < n
  {
    if n == 0 then {} else Range(n - 1) + {n - 1}
  }

  // ---------------------------------------------------------------- operations

  /** A removal that fails may leave any part of the folder behind. */
  function Sweep(blobs: map<Id, Folder>, id: Id, left: Option<Folder>): map<Id, Folder> {
    if left.Some? then blobs[id := left.value] else blobs - {id}
  }

  ghost predicate Uploading(s: Store, slot: Slot, id: Id) {
    id in s.uploads && s.uploads[id].slot == slot
  }

  ghost predicate Stored(s: Store, slot: Slot, id: Id) {
    id in s.entries && s.entries[id].slot == slot
  }

  ghost function FindUpload(s: Store, slot: Slot): (r: Option<Id>)
    ensures r.Some? ==> Uploading(s, slot, r.value)
    ensures r.None? ==> forall id :: !Uploading(s, slot, id)
  {
    if exists id :: Uploading(s, slot, id) then var id :| Uploading(s, slot, id); Some(id) else None
  }

  ghost function FindEntry(s: Store, slot: Slot): (r: Option<Id>)
    ensures r.Some? ==> Stored(s, slot, r.value)
    ensures r.None? ==> forall id :: !Stored(s, slot, id)
  {
    if exists id :: Stored(s, slot, id) then var id :| Stored(s, slot, id); Some(id) else None
  }

  /** Reserve an upload; a second one for the same slot is refused. */
  ghost function CreateUpload(s: Store, slot: Slot, id: Id): Store {
    if FindUpload(s, slot).Some? then s else s.(uploads := s.uploads[id := Upload(slot, 0, 0)])
  }

  /** One chunk. `left` is what the file holds afterwards, if it was created; `ok` that the write finished. */
  function UploadPart(s: Store, id: Id, index: int, left: Option<Bytes>, ok: bool): Store {
    if id !in s.uploads then s
    else s.(uploads := s.uploads[id := Upload(s.uploads[id].slot, s.uploads[id].started + 1,
                                              s.uploads[id].finished + if ok then 1 else 0)],
            blobs := if left.Some? then s.blobs[id := FolderOf(s, id)[index := left.value]] else s.blobs)
  }

  datatype Completion = NoUpload | NoParts | Mismatch | Promoted(id: Id)

  predicate Contiguous(f: Folder, n: nat) {
    forall i | 0 <= i < n :: i in f
  }

  ghost function Completes(s: Store, slot: Slot): Completion {
    match FindUpload(s, slot)
    case None => NoUpload
    case Some(id) =>
      var up := s.uploads[id];
      if up.finished == 0 then NoParts
      else if up.started != up.finished || |FolderOf(s, id)| != up.finished || !Contiguous(FolderOf(s, id), up.finished)
      then Mismatch
      else Promoted(id)
  }

  /** Finalize the slot's upload; a refusal forgets the upload but leaves its folder. */
  ghost function CompleteUpload(s: Store, slot: Slot, now: int, left: Option<Folder>): Store {
    match Completes(s, slot)
    case NoUpload => s
    case Promoted(id) => Promote(s, slot, id, FindEntry(s, slot), now, left)
    case _ => s.(uploads := s.uploads - {FindUpload(s, slot).value})
  }

  function Promote(s: Store, slot: Slot, id: Id, prior: Option<Id>, now: int, left: Option<Folder>): Store
    requires id in s.uploads
  {
    var kept := if prior.Some? then s.entries - {prior.value} else s.entries;
    s.(uploads := s.uploads - {id},
       entries := kept[id := Entry(slot, s.uploads[id].finished, now, now)],
       blobs := if prior.Some? && prior.value != id then Sweep(s.blobs, prior.value, left) else s.blobs)
  }

  function TouchEntry(s: Store, id: Id, now: int): Store {
    if id in s.entries then s.(entries := s.entries[id := s.entries[id].(lastUsed := now)]) else s
  }

  function DeleteEntry(s: Store, id: Id, left: Option<Folder>): Store {
    s.(entries := s.entries - {id}, blobs := if id in s.entries then Sweep(s.blobs, id, left) else s.blobs)
  }

  datatype Op =
    | OpCreate(slot: Slot, id: Id)
    | OpPart(id: Id, index: int, left: Option<Bytes>, ok: bool)
    | OpComplete(slot: Slot, now: int, swept: Option<Folder>)
    | OpTouch(id: Id, now: int)
    | OpDelete(id: Id, swept: Option<Folder>)

  /** New ids are fresh, and a finished write leaves its file. */
  predicate Enabled(s: Store, op: Op) {
    match op
    case OpCreate(_, id) => id !in s.uploads && id !in s.entries && id !in s.blobs
    case OpPart(_, _, left, ok) => ok ==> left.Some?
    case _ => true
  }

  ghost function Apply(s: Store, op: Op): Store {
    match op
    case OpCreate(slot, id) => CreateUpload(s, slot, id)
    case OpPart(id, index, left, ok) => UploadPart(s, id, index, left, ok)
    case OpComplete(slot, now, swept) => CompleteUpload(s, slot, now, swept)
    case OpTouch(id, now) => TouchEntry(s, id, now)
    case OpDelete(id, swept) => DeleteEntry(s, id, swept)
  }

  ghost predicate Legal(s: Store, ops: seq<Op>)
    decreases |ops|
  {
    ops == [] || (Enabled(s, ops[0]) && Legal(Apply(s, ops[0]), ops[1..]))
  }

  ghost function Exec(s: Store, ops: seq<Op>): Store
    decreases |ops|
  {
    if ops == [] then s else Exec(Apply(s, ops[0]), ops[1..])
  }

  // ---------------------------------------------------------------- the invariant

  /** A finalized entry's folder holds exactly the files 0..partCount-1. */
  predicate Readable(s: Store, id: Id) {
    && id in s.entries && id in s.blobs
    && s.entries[id].partCount > 0 && s.blobs[id].Keys == Range(s.entries[id].partCount)
  }

  ghost predicate Valid(s: Store) {
    UniqueUploads(s) && UniqueEntries(s) && s.uploads.Keys !! s.entries.Keys && AllReadable(s)
  }

  ghost predicate UniqueUploads(s: Store) {
    forall a, b, slot | Uploading(s, slot, a) && Uploading(s, slot, b) :: a == b
  }

  ghost predicate UniqueEntries(s: Store) {
    forall a, b, slot | Stored(s, slot, a) && Stored(s, slot, b) :: a == b
  }

  ghost predicate AllReadable(s: Store) {
    forall id | id in s.entries :: Readable(s, id)
  }

  const EMPTY: Store := Store(map[], map[], map[])

  /** Pigeonhole: as many files as finished parts, with none of 0..n-1 missing, are exactly those. */
  lemma PromotedIsReadable(s: Store, slot: Slot)
    requires Completes(s, slot).Promoted?
    ensures var id := Completes(s, slot).id;
      s.uploads[id].finished > 0 && FolderOf(s, id).Keys == Range(s.uploads[id].finished)
  {
    var id := Completes(s, slot).id;
    var n := s.uploads[id].finished;
    assert forall i | i in Range(n) :: i in FolderOf(s, id);
    SubsetFills(Range(n), FolderOf(s, id).Keys);
  }

  lemma PromoteKeepsReadable(s: Store, slot: Slot, now: int, left: Option<Folder>)
    requires Valid(s) && Completes(s, slot).Promoted?
    ensures AllReadable(CompleteUpload(s, slot, now, left))
  {
    var s', id := CompleteUpload(s, slot, now, left), Completes(s, slot).id;
    forall e | e in s'.entries ensures Readable(s', e) {
      if e == id {
        PromotedIsReadable(s, slot);
        NewIsReadable(s, slot, id, FindEntry(s, slot), now, left);
      } else {
        assert Readable(s, e);
        OthersStayReadable(s, slot, id, FindEntry(s, slot), now, left, e);
      }
    }
  }

  /** The new entry, stamped `now`, stands for its slot, and every other slot's entry is as it was. */
  ghost predicate Replaced(was: map<Id, Entry>, now: map<Id, Entry>, slot: Slot, id: Id, parts: nat, at: int) {
    && id in now && now[id] == Entry(slot, parts, at, at)
    && forall other | other != id ::
         (other in now <==> other in was && was[other].slot != slot) && (other in now ==> now[other] == was[other])
  }

  /** A finalized upload takes its slot over; a refused one changes no entry and no blob. */
  lemma CompletionReplaces(s: Store, slot: Slot, now: int, left: Option<Folder>)
    requires Valid(s)
    ensures var s', result := CompleteUpload(s, slot, now, left), Completes(s, slot);
      && (!result.Promoted? ==> s'.entries == s.entries && s'.blobs == s.blobs)
      && (result.NoUpload? <==> forall id | id in s.uploads :: s.uploads[id].slot != slot)
      && (result.NoParts? <==>
            exists id :: id in s.uploads && s.uploads[id].slot == slot && s.uploads[id].finished == 0)
      && (forall id :: id in s'.uploads <==> id in s.uploads && s.uploads[id].slot != slot)
      && (result.Promoted? ==>
            && result.id in s.uploads && s.uploads[result.id].slot == slot && s'.uploads == s.uploads - {result.id}
            && Replaced(s.entries, s'.entries, slot, result.id, s.uploads[result.id].finished, now))
  {
    forall id | id in s.uploads && s.uploads[id].slot == slot ensures FindUpload(s, slot) == Some(id) {
      assert Uploading(s, slot, id);
    }
    if Completes(s, slot).Promoted? {
      var id, prior := Completes(s, slot).id, FindEntry(s, slot);
      forall other | other in s.entries && other != id ensures s.entries[other].slot == slot <==> prior == Some(other) {
        if s.entries[other].slot == slot { assert Stored(s, slot, other); }
      }
    }
  }

  lemma NewIsReadable(s: Store, slot: Slot, id: Id, prior: Option<Id>, now: int, left: Option<Folder>)
    requires id in s.uploads && s.uploads[id].finished > 0 && FolderOf(s, id).Keys == Range(s.uploads[id].finished)
    ensures Readable(Promote(s, slot, id, prior, now, left), id)
  {
    assert 0 in FolderOf(s, id).Keys;
  }

  lemma OthersStayReadable(s: Store, slot: Slot, id: Id, prior: Option<Id>, now: int, left: Option<Folder>, e: Id)
    requires id in s.uploads && e != id && Readable(s, e) && e in Promote(s, slot, id, prior, now, left).entries
    ensures Readable(Promote(s, slot, id, prior, now, left), e)
  {}

  lemma PromoteKeepsEntries(s: Store, slot: Slot, now: int, left: Option<Folder>)
    requires UniqueEntries(s) && Completes(s, slot).Promoted?
    ensures UniqueEntries(CompleteUpload(s, slot, now, left))
  {
    var s', id := CompleteUpload(s, slot, now, left), Completes(s, slot).id;
    forall a, b, sl | Stored(s', sl, a) && Stored(s', sl, b) ensures a == b {
      if a != id { assert Stored(s, sl, a); }
      if b != id { assert Stored(s, sl, b); }
    }
  }

  lemma FewerUploads(s: Store, s': Store)
    requires UniqueUploads(s)
    requires forall id | id in s'.uploads :: id in s.uploads && s.uploads[id].slot == s'.uploads[id].slot
    ensures UniqueUploads(s')
  {
    forall a, b, sl | Uploading(s', sl, a) && Uploading(s', sl, b) ensures a == b {
      assert Uploading(s, sl, a) && Uploading(s, sl, b);
    }
  }

  lemma FewerEntries(s: Store, s': Store)
    requires UniqueEntries(s)
    requires forall id | id in s'.entries :: id in s.entries && s.entries[id].slot == s'.entries[id].slot
    ensures UniqueEntries(s')
  {
    forall a, b, sl | Stored(s', sl, a) && Stored(s', sl, b) ensures a == b {
      assert Stored(s, sl, a) && Stored(s, sl, b);
    }
  }

  lemma SameReadable(s: Store, s': Store)
    requires AllReadable(s)
    requires forall id | id in s'.entries ::
               && id in s.entries && s'.entries[id].partCount == s.entries[id].partCount
               && (id in s.blobs ==> id in s'.blobs && s'.blobs[id] == s.blobs[id])
    ensures AllReadable(s')
  {
    forall e | e in s'.entries ensures Readable(s', e) { assert Readable(s, e); }
  }

  lemma CompleteKeepsValid(s: Store, slot: Slot, now: int, left: Option<Folder>)
    requires Valid(s)
    ensures Valid(CompleteUpload(s, slot, now, left))
  {
    var s' := CompleteUpload(s, slot, now, left);
    FewerUploads(s, s');
    if Completes(s, slot).Promoted? {
      PromoteKeepsReadable(s, slot, now, left);
      PromoteKeepsEntries(s, slot, now, left);
    } else {
      FewerEntries(s, s');
      SameReadable(s, s');
    }
  }

  lemma CreateKeepsValid(s: Store, slot: Slot, id: Id)
    requires Valid(s) && Enabled(s, OpCreate(slot, id))
    ensures Valid(CreateUpload(s, slot, id))
  {
    var s' := CreateUpload(s, slot, id);
    forall a, b, sl | Uploading(s', sl, a) && Uploading(s', sl, b) ensures a == b {
      assert a in s.uploads ==> Uploading(s, sl, a);
      assert b in s.uploads ==> Uploading(s, sl, b);
    }
    FewerEntries(s, s');
    SameReadable(s, s');
  }

  lemma PartKeepsValid(s: Store, id: Id, index: int, left: Option<Bytes>, ok: bool)
    requires Valid(s)
    ensures Valid(UploadPart(s, id, index, left, ok))
  {
    FewerUploads(s, UploadPart(s, id, index, left, ok));
    FewerEntries(s, UploadPart(s, id, index, left, ok));
    SameReadable(s, UploadPart(s, id, index, left, ok));
  }

  lemma ApplyKeepsValid(s: Store, op: Op)
    requires Valid(s) && Enabled(s, op)
    ensures Valid(Apply(s, op))
  {
    match op {
      case OpCreate(slot, id) => CreateKeepsValid(s, slot, id);
      case OpPart(id, index, left, ok) => PartKeepsValid(s, id, index, left, ok);
      case OpComplete(slot, now, swept) => CompleteKeepsValid(s, slot, now, swept);
      case _ =>
        FewerUploads(s, Apply(s, op));
        FewerEntries(s, Apply(s, op));
        SameReadable(s, Apply(s, op));
    }
  }

  lemma {:induction false} ExecKeepsValid(s: Store, ops: seq<Op>)
    requires Valid(s) && Legal(s, ops)
    ensures Valid(Exec(s, ops))
    decreases |ops|
  {
    if ops != [] {
      ApplyKeepsValid(s, ops[0]);
      ExecKeepsValid(Apply(s, ops[0]), ops[1..]);
    }
  }

  /** Whatever happened since the store was empty, every entry's folder is complete. */
  lemma EntriesAlwaysComplete(ops: seq<Op>, id: Id)
    requires Legal(EMPTY, ops) && id in Exec(EMPTY, ops).entries
    ensures Readable(Exec(EMPTY, ops), id)
  {
    ExecKeepsValid(EMPTY, ops);
  }

  // ---------------------------------------------------------------- uploads among other traffic

  predicate IsPart(op: Op, id: Id) {
    op.OpPart? && op.id == id
  }

  /** The chunks sent to one upload, in order. */
  function PartsOf(ops: seq<Op>, id: Id): (mine: seq<Op>)
    ensures forall k | 0 <= k < |mine| :: IsPart(mine[k], id)
    decreases |ops|
  {
    if ops == [] then []
    else PartsOf(ops[..|ops| - 1], id) + if IsPart(ops[|ops| - 1], id) then [ops[|ops| - 1]] else []
  }

  predicate AllParts(mine: seq<Op>) {
    forall k | 0 <= k < |mine| :: mine[k].OpPart? && (mine[k].ok ==> mine[k].left.Some?)
  }

  function Finished(mine: seq<Op>): (n: nat)
    requires AllParts(mine)
    ensures n <= |mine|
    decreases |mine|
  {
    if mine == [] then 0 else Finished(mine[..|mine| - 1]) + if mine[|mine| - 1].ok then 1 else 0
  }

  /** The folder that a list of chunks leaves; a repeated index overwrites. */
  function Written(mine: seq<Op>): Folder
    requires AllParts(mine)
    decreases |mine|
  {
    if mine == [] then map[]
    else
      var last := mine[|mine| - 1];
      var front := Written(mine[..|mine| - 1]);
      if last.left.Some? then front[last.index := last.left.value] else front
  }

  /** Every index 0..n-1 sent once, and every write finished. */
  predicate Exact(mine: seq<Op>) {
    && AllParts(mine)
    && (forall k | 0 <= k < |mine| :: mine[k].ok && 0 <= mine[k].index < |mine|)
    && (forall j, k | 0 <= j < k < |mine| :: mine[j].index != mine[k].index)
  }

  lemma {:induction false} AllFinished(mine: seq<Op>)
    requires AllParts(mine)
    ensures Finished(mine) == |mine| <==> forall k | 0 <= k < |mine| :: mine[k].ok
    ensures Finished(mine) == 0 <==> forall k | 0 <= k < |mine| :: !mine[k].ok
  {
    if mine != [] {
      var front := mine[..|mine| - 1];
      AllFinished(front);
      assert forall k | 0 <= k < |front| :: front[k] == mine[k];
    }
  }

  predicate Sent(mine: seq<Op>, i: int) {
    exists k :: 0 <= k < |mine| && mine[k].OpPart? && mine[k].left.Some? && mine[k].index == i
  }

  lemma {:induction false} WrittenKeys(mine: seq<Op>)
    requires AllParts(mine)
    ensures |Written(mine)| <= |mine|
    ensures forall i :: i in Written(mine) <==> Sent(mine, i)
  {
    if mine != [] {
      var front, last := mine[..|mine| - 1], mine[|mine| - 1];
      WrittenKeys(front);
      assert forall k | 0 <= k < |front| :: front[k] == mine[k];
      forall i ensures i in Written(mine) <==> Sent(mine, i) {
        if Sent(mine, i) {
          var k :| 0 <= k < |mine| && mine[k].left.Some? && mine[k].index == i;
          if k < |front| { assert front[k].index == i; assert Sent(front, i); }
        }
        if Sent(front, i) {
          var k :| 0 <= k < |front| && front[k].left.Some? && front[k].index == i;
          assert mine[k].index == i;
        }
      }
      if last.left.Some? { KeysAfterUpdate(Written(front), last.index, last.left.value); }
    }
  }

  lemma KeysAfterUpdate(f: Folder, i: int, data: Bytes)
    ensures |f[i := data]| == if i in f then |f| else |f| + 1
  {
    assert f[i := data].Keys == f.Keys + {i};
  }

  /** A folder with one file per chunk means that no chunk repeated an index. */
  lemma {:induction false} NoRepeats(mine: seq<Op>)
    requires AllParts(mine) && |Written(mine)| == |mine|
    ensures forall j, k | 0 <= j < k < |mine| :: mine[j].index != mine[k].index
    ensures forall k | 0 <= k < |mine| :: mine[k].left.Some?
  {
    if mine != [] {
      var front, last := mine[..|mine| - 1], mine[|mine| - 1];
      WrittenKeys(front);
      if last.left.Some? { KeysAfterUpdate(Written(front), last.index, last.left.value); }
      NoRepeats(front);
      assert !Sent(front, last.index);
      assert forall k | 0 <= k < |front| :: front[k] == mine[k];
    }
  }

  lemma {:induction false} ExactContents(mine: seq<Op>)
    requires Exact(mine)
    ensures |Written(mine)| == |mine|
    ensures forall k | 0 <= k < |mine| ::
              mine[k].index in Written(mine) && Written(mine)[mine[k].index] == mine[k].left.value
  {
    DistinctContents(mine);
  }

  lemma {:induction false} DistinctContents(mine: seq<Op>)
    requires AllParts(mine) && (forall k | 0 <= k < |mine| :: mine[k].ok)
    requires forall j, k | 0 <= j < k < |mine| :: mine[j].index != mine[k].index
    ensures |Written(mine)| == |mine|
    ensures forall k | 0 <= k < |mine| ::
              mine[k].index in Written(mine) && Written(mine)[mine[k].index] == mine[k].left.value
  {
    if mine != [] {
      var front, last := mine[..|mine| - 1], mine[|mine| - 1];
      assert forall k | 0 <= k < |front| :: front[k] == mine[k];
      DistinctContents(front);
      WrittenKeys(front);
      KeysAfterUpdate(Written(front), last.index, last.left.value);
    }
  }

  predicate Accepts(mine: seq<Op>)
    requires AllParts(mine)
  {
    Finished(mine) == |mine| && |Written(mine)| == |mine| && Contiguous(Written(mine), |mine|)
  }

  lemma AcceptedIsExact(mine: seq<Op>)
    requires AllParts(mine) && Accepts(mine)
    ensures Exact(mine)
  {
    var f, n := Written(mine), |mine|;
    AllFinished(mine);
    WrittenKeys(mine);
    NoRepeats(mine);
    assert forall i | i in Range(n) :: i in f;
    SubsetFills(Range(n), f.Keys);
    forall k | 0 <= k < n ensures 0 <= mine[k].index < n {
      assert Sent(mine, mine[k].index);
      assert mine[k].index in f.Keys;
    }
  }

  lemma ExactIsAccepted(mine: seq<Op>)
    requires Exact(mine)
    ensures Accepts(mine) && Written(mine).Keys == Range(|mine|)
  {
    var f, n := Written(mine), |mine|;
    AllFinished(mine);
    WrittenKeys(mine);
    ExactContents(mine);
    forall i | i in f.Keys ensures i in Range(n) {
      assert Sent(mine, i);
    }
    SubsetFills(f.Keys, Range(n));
  }

  /** A finalize accepts the chunks exactly when each of 0..n-1 was sent once and finished. */
  lemma AcceptsIffExact(mine: seq<Op>)
    requires AllParts(mine)
    ensures Accepts(mine) <==> Exact(mine)
  {
    if Accepts(mine) { AcceptedIsExact(mine); }
    if Exact(mine) { ExactIsAccepted(mine); }
  }

  /** What the store knows of an upload is what was sent to it. */
  ghost predicate Tracks(s: Store, id: Id, slot: Slot, mine: seq<Op>)
  {
    && AllParts(mine) && id in s.uploads
    && s.uploads[id] == Upload(slot, |mine|, Finished(mine)) && FolderOf(s, id) == Written(mine)
  }

  predicate Finalizes(op: Op, slot: Slot) {
    op.OpComplete? && op.slot == slot
  }

  lemma TracksStep(s: Store, op: Op, id: Id, slot: Slot, mine: seq<Op>)
    requires Valid(s) && Enabled(s, op) && Tracks(s, id, slot, mine) && !Finalizes(op, slot)
    ensures Tracks(Apply(s, op), id, slot, if IsPart(op, id) then mine + [op] else mine)
  {
    if IsPart(op, id) { PartTracks(s, op, id, slot, mine); } else { OtherTracks(s, op, id, slot, mine); }
  }

  lemma PartTracks(s: Store, op: Op, id: Id, slot: Slot, mine: seq<Op>)
    requires Valid(s) && Enabled(s, op) && Tracks(s, id, slot, mine) && IsPart(op, id)
    ensures Tracks(Apply(s, op), id, slot, mine + [op])
  {
    assert (mine + [op])[..|mine|] == mine;
    assert AllParts(mine + [op]);
  }

  lemma OtherTracks(s: Store, op: Op, id: Id, slot: Slot, mine: seq<Op>)
    requires Valid(s) && Enabled(s, op) && Tracks(s, id, slot, mine) && !Finalizes(op, slot) && !IsPart(op, id)
    ensures Tracks(Apply(s, op), id, slot, mine)
  {}

  lemma {:induction false} ExecTracks(s: Store, ops: seq<Op>, id: Id, slot: Slot)
    requires Valid(s) && Tracks(s, id, slot, []) && Legal(s, ops)
    requires forall k | 0 <= k < |ops| :: !Finalizes(ops[k], slot)
    ensures Valid(Exec(s, ops)) && Tracks(Exec(s, ops), id, slot, PartsOf(ops, id))
    decreases |ops|
  {
    if ops != [] {
      var front, last := ops[..|ops| - 1], ops[|ops| - 1];
      ExecFront(s, ops);
      ExecTracks(s, front, id, slot);
      TracksStep(Exec(s, front), last, id, slot, PartsOf(front, id));
      ApplyKeepsValid(Exec(s, front), last);
      assert PartsOf(ops, id) == if IsPart(last, id) then PartsOf(front, id) + [last] else PartsOf(front, id);
    }
  }

  lemma {:induction false} ExecFront(s: Store, ops: seq<Op>)
    requires ops != [] && Legal(s, ops)
    ensures var front := ops[..|ops| - 1];
      && Legal(s, front) && Enabled(Exec(s, front), ops[|ops| - 1])
      && Exec(s, ops) == Apply(Exec(s, front), ops[|ops| - 1])
    decreases |ops|
  {
    if |ops| > 1 {
      ExecFront(Apply(s, ops[0]), ops[1..]);
      assert ops[1..][..|ops| - 2] == ops[..|ops| - 1][1..];
    } else {
      assert ops[..0] == [];
    }
  }

  /** What a finalize answers to the chunks sent. */
  predicate AnswersTo(c: Completion, id: Id, mine: seq<Op>)
    requires AllParts(mine)
  {
    c == if forall k | 0 <= k < |mine| :: !mine[k].ok then NoParts else if Exact(mine) then Promoted(id) else Mismatch
  }

  lemma CompletesTracked(t: Store, slot: Slot, id: Id, mine: seq<Op>)
    requires Valid(t) && Tracks(t, id, slot, mine)
    ensures AnswersTo(Completes(t, slot), id, mine)
  {
    assert Uploading(t, slot, id);
    assert FindUpload(t, slot) == Some(id);
    AcceptsIffExact(mine);
    AllFinished(mine);
    if Finished(mine) == |mine| > 0 { assert mine[0].ok; }
  }

  /** The entry holds precisely what each chunk carried. */
  ghost predicate Holds(s: Store, id: Id, mine: seq<Op>) {
    && AllParts(mine) && Readable(s, id) && s.entries[id].partCount == |mine|
    && forall k | 0 <= k < |mine| ::
         mine[k].left.Some? && mine[k].index in s.blobs[id] && s.blobs[id][mine[k].index] == mine[k].left.value
  }

  lemma PromotedHolds(t: Store, slot: Slot, id: Id, mine: seq<Op>, now: int, left: Option<Folder>)
    requires Valid(t) && Tracks(t, id, slot, mine) && Completes(t, slot) == Promoted(id) && Exact(mine)
    ensures Holds(CompleteUpload(t, slot, now, left), id, mine)
  {
    var done := CompleteUpload(t, slot, now, left);
    ExactContents(mine);
    CompleteKeepsValid(t, slot, now, left);
    assert id in done.entries && Readable(done, id);
    assert done.blobs[id] == Written(mine);
  }

  /**
   * An upload reserved and then fed among any other traffic is accepted by its finalize exactly when
   * each part 0..n-1 was sent once and finished; then its entry holds precisely what was sent.
   */
  lemma FinalizeAcceptsIff(s: Store, slot: Slot, id: Id, ops: seq<Op>, now: int, left: Option<Folder>)
    requires Valid(s) && Enabled(s, OpCreate(slot, id)) && FindUpload(s, slot).None?
    requires Legal(CreateUpload(s, slot, id), ops) && forall k | 0 <= k < |ops| :: !Finalizes(ops[k], slot)
    ensures var t, mine := Exec(CreateUpload(s, slot, id), ops), PartsOf(ops, id);
      && AllParts(mine) && AnswersTo(Completes(t, slot), id, mine)
      && id !in CompleteUpload(t, slot, now, left).uploads
      && (Completes(t, slot) == Promoted(id) ==> Holds(CompleteUpload(t, slot, now, left), id, mine))
  {
    ApplyKeepsValid(s, OpCreate(slot, id));
    var u := CreateUpload(s, slot, id);
    ExecTracks(u, ops, id, slot);
    FinalizeAnswers(Exec(u, ops), slot, id, PartsOf(ops, id), now, left);
  }

  lemma FinalizeAnswers(t: Store, slot: Slot, id: Id, mine: seq<Op>, now: int, left: Option<Folder>)
    requires Valid(t) && Tracks(t, id, slot, mine)
    ensures AnswersTo(Completes(t, slot), id, mine) && id !in CompleteUpload(t, slot, now, left).uploads
    ensures Completes(t, slot) == Promoted(id) ==> Holds(CompleteUpload(t, slot, now, left), id, mine)
  {
    CompletesTracked(t, slot, id, mine);
    if Completes(t, slot) == Promoted(id) { PromotedHolds(t, slot, id, mine, now, left); }
    assert Uploading(t, slot, id) && FindUpload(t, slot) == Some(id);
  }

  // ---------------------------------------------------------------- reading back

  function Concat(f: Folder, from: nat, n: nat): Bytes
    requires from <= n && forall i | from <= i < n :: i in f
    decreases n - from
  {
    if from == n then [] else f[from] + Concat(f, from + 1, n)
  }

  lemma {:induction false} ConcatIsJoined(f: Folder, from: nat, data: seq<Bytes>)
    requires forall i | from <= i < from + |data| :: i in f && f[i] == data[i - from]
    ensures Concat(f, from, from + |data|) == Joined(data)
    decreases |data|
  {
    if data != [] {
      ConcatIsJoined(f, from + 1, data[1..]);
    }
  }

  predicate Carries(op: Op, data: seq<Bytes>) {
    op.OpPart? && 0 <= op.index < |data| && op.left == Some(data[op.index])
  }

  /** One upload from its reservation to its finalize: everything that happened in between, and the data sent. */
  datatype Uploaded = Uploaded(slot: Slot, ops: seq<Op>, data: seq<Bytes>, now: int, swept: Option<Folder>)

  /** Each part is sent once, in any order and among any other traffic. */
  ghost predicate Uploads(s: Store, up: Uploaded, id: Id) {
    var mine := PartsOf(up.ops, id);
    && Valid(s) && Enabled(s, OpCreate(up.slot, id)) && FindUpload(s, up.slot).None? && up.data != []
    && Legal(CreateUpload(s, up.slot, id), up.ops) && (forall k | 0 <= k < |up.ops| :: !Finalizes(up.ops[k], up.slot))
    && Exact(mine) && |mine| == |up.data| && forall k | 0 <= k < |mine| :: Carries(mine[k], up.data)
  }

  ghost function Finalized(s: Store, up: Uploaded, id: Id): Store {
    CompleteUpload(Exec(CreateUpload(s, up.slot, id), up.ops), up.slot, up.now, up.swept)
  }

  /** Round trip: the parts of the data, sent once each in any order and interleaving, read back joined. */
  lemma UploadRoundTrip(s: Store, up: Uploaded, id: Id)
    requires Uploads(s, up, id)
    ensures var done := Finalized(s, up, id);
      && Readable(done, id) && done.entries[id].partCount == |up.data|
      && Concat(done.blobs[id], 0, |up.data|) == Joined(up.data)
  {
    var mine := PartsOf(up.ops, id);
    FinalizeAcceptsIff(s, up.slot, id, up.ops, up.now, up.swept);
    assert mine[0].ok;
    HeldReadsBack(Finalized(s, up, id), id, mine, up.data);
  }

  lemma FinalizedIsValid(s: Store, up: Uploaded, id: Id)
    requires Uploads(s, up, id)
    ensures Valid(Finalized(s, up, id))
  {
    ApplyKeepsValid(s, OpCreate(up.slot, id));
    var u := CreateUpload(s, up.slot, id);
    ExecKeepsValid(u, up.ops);
    CompleteKeepsValid(Exec(u, up.ops), up.slot, up.now, up.swept);
  }

  lemma HeldReadsBack(done: Store, id: Id, mine: seq<Op>, data: seq<Bytes>)
    requires Exact(mine) && |mine| == |data| && Holds(done, id, mine)
    requires forall k | 0 <= k < |data| :: Carries(mine[k], data)
    ensures Concat(done.blobs[id], 0, |data|) == Joined(data)
  {
    forall i | 0 <= i < |data| ensures i in done.blobs[id] && done.blobs[id][i] == data[i] {
      EachSent(mine, i);
      var k :| 0 <= k < |mine| && mine[k].index == i;
      assert Carries(mine[k], data);
    }
    ConcatIsJoined(done.blobs[id], 0, data);
  }

  lemma EachSent(mine: seq<Op>, i: int)
    requires Exact(mine) && 0 <= i < |mine|
    ensures exists k :: 0 <= k < |mine| && mine[k].index == i
  {
    ExactIsAccepted(mine);
    WrittenKeys(mine);
    assert i in Written(mine).Keys;
    assert Sent(mine, i);
  }

  /** The entry is still what it was, but for its last use. */
  ghost predicate SameParts(s: Store, s': Store, id: Id) {
    && id in s.entries && id in s'.entries && id in s.blobs && id in s'.blobs && s'.blobs[id] == s.blobs[id]
    && s'.entries[id].partCount == s.entries[id].partCount && s'.entries[id].slot == s.entries[id].slot
  }

  lemma PromotionKeepsParts(s: Store, slot: Slot, now: int, left: Option<Folder>, id: Id)
    requires Valid(s) && Readable(s, id) && id in CompleteUpload(s, slot, now, left).entries
    ensures SameParts(s, CompleteUpload(s, slot, now, left), id)
  {}

  /** Until its row is replaced or removed, a finalized entry keeps its parts under every operation. */
  lemma EntryKeepsParts(s: Store, op: Op, id: Id)
    requires Valid(s) && Enabled(s, op) && id in s.entries && id in Apply(s, op).entries
    ensures Readable(s, id) && SameParts(s, Apply(s, op), id)
  {
    assert Readable(s, id);
    if op.OpComplete? { PromotionKeepsParts(s, op.slot, op.now, op.swept, id); }
  }

  /** The entry's row is there before and after each of the operations. */
  ghost predicate RowStays(s: Store, ops: seq<Op>, id: Id)
    decreases |ops|
  {
    id in s.entries && (ops == [] || RowStays(Apply(s, ops[0]), ops[1..], id))
  }

  /** As long as its row stays, an entry keeps its parts through any run. */
  lemma {:induction false} RunKeepsParts(s: Store, ops: seq<Op>, id: Id)
    requires Valid(s) && Legal(s, ops) && RowStays(s, ops, id)
    ensures Valid(Exec(s, ops)) && Readable(s, id) && SameParts(s, Exec(s, ops), id)
    decreases |ops|
  {
    assert Readable(s, id);
    if ops != [] {
      ApplyKeepsValid(s, ops[0]);
      EntryKeepsParts(s, ops[0], id);
      RunKeepsParts(Apply(s, ops[0]), ops[1..], id);
    }
  }

  /** Uploaded data is what the entry's parts hold after any further run that leaves its row. */
  lemma StoredReadsBack(s: Store, up: Uploaded, id: Id, later: seq<Op>)
    requires Uploads(s, up, id) && Legal(Finalized(s, up, id), later) && RowStays(Finalized(s, up, id), later, id)
    ensures var t := Exec(Finalized(s, up, id), later);
      && Valid(t) && Readable(t, id) && t.entries[id].partCount == |up.data|
      && Concat(t.blobs[id], 0, |up.data|) == Joined(up.data)
  {
    UploadRoundTrip(s, up, id);
    FinalizedIsValid(s, up, id);
    RunKeepsParts(Finalized(s, up, id), later, id);
    assert Readable(Exec(Finalized(s, up, id), later), id);
  }
}
