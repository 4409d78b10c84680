/** The cache store as the object its HTTP handlers call. */
module CacheObject {
  import opened Common
  import opened CacheStore
  import opened CacheLookup
  import opened CacheEvict
  import opened CacheReader

  predicate Split(all: set<Id>, todo: set<Id>, gone: set<Id>) {
    todo !! gone && todo + gone == all
  }

  lemma SplitMoves(all: set<Id>, todo: set<Id>, gone: set<Id>, id: Id)
    requires Split(all, todo, gone) && id in todo
    ensures Split(all, todo - {id}, gone + {id}) && id in all && id !in gone && gone + {id} <= all
  {}

  lemma SplitDone(all: set<Id>, gone: set<Id>)
    requires Split(all, {}, gone)
    ensures gone == all
  {}

  class Tables {
    var uploads: map<Id, Upload>
    var entries: map<Id, Entry>
    var blobs: map<Id, Folder>

    ghost function View(): Store
      reads this
    {
      Store(uploads, entries, blobs)
    }

    constructor ()
      ensures View() == EMPTY && Valid(View())
    {
      uploads, entries, blobs := map[], map[], map[];
    }

    method FolderSizeOf(id: Id) returns (total: nat)
      ensures total == FolderSize(FolderOf(View(), id))
    {
      total := 0;
      if id !in blobs { return; }
      var f := blobs[id];
      var todo := f.Keys;
      ghost var left := Sizes(f);
      while todo != {}
        invariant left.Keys == todo <= f.Keys && forall i | i in todo :: left[i] == |f[i]|
        invariant total + SumOf(left) == FolderSize(f)
        decreases todo
      {
        EmptyIfNone(todo);
        var i: int :| i in todo;
        SumSplit(left, i);
        total := total + |f[i]|;
        todo, left := todo - {i}, left - {i};
      }
    }

    method TotalBlobSize() returns (total: nat)
      ensures total == Total(blobs)
    {
      total := 0;
      var todo := blobs.Keys;
      ghost var left := blobs;
      while todo != {}
        invariant left.Keys == todo <= blobs.Keys && forall id | id in todo :: left[id] == blobs[id]
        invariant total + Total(left) == Total(blobs)
        decreases todo
      {
        EmptyIfNone(todo);
        var id: Id :| id in todo;
        var size := FolderSizeOf(id);
        TotalWithout(left, id);
        total := total + size;
        todo, left := todo - {id}, left - {id};
      }
    }

    /** SELECT id ... ORDER BY last_used_at ASC. */
    method OrderByLastUsed() returns (order: seq<Id>)
      ensures LruOrder(entries, order)
    {
      order := [];
      var todo := entries.Keys;
      while todo != {}
        invariant todo <= entries.Keys
        invariant forall id | id in order :: id in entries && id !in todo
        invariant forall id | id in entries :: id in order || id in todo
        invariant forall i, j | 0 <= i < j < |order| :: order[i] != order[j]
        invariant forall i, j | 0 <= i < j < |order| && order[i] in entries && order[j] in entries ::
                    entries[order[i]].lastUsed <= entries[order[j]].lastUsed
        invariant forall a, b | a in order && b in todo && a in entries && b in entries ::
                    entries[a].lastUsed <= entries[b].lastUsed
        decreases todo
      {
        var id := Oldest(todo);
        order := order + [id];
        todo := todo - {id};
      }
    }

    method Oldest(ids: set<Id>) returns (id: Id)
      requires ids != {} && ids <= entries.Keys
      ensures id in ids && forall other | other in ids :: entries[id].lastUsed <= entries[other].lastUsed
    {
      EmptyIfNone(ids);
      id :| id in ids;
      var todo := ids;
      while todo != {}
        invariant todo <= ids && id in ids
        invariant forall other | other in ids && other !in todo :: entries[id].lastUsed <= entries[other].lastUsed
        decreases todo
      {
        EmptyIfNone(todo);
        var other: Id :| other in todo;
        if entries[other].lastUsed < entries[id].lastUsed { id := other; }
        todo := todo - {other};
      }
    }

    /** Delete one more entry, after `gone` are gone. */
    method DeleteNext(ghost was: Store, ghost gone: set<Id>, id: Id, world: Id -> Option<Folder>) returns (failed: bool)
      requires View() == Without(was, gone) && id in was.entries && id !in gone
      modifies this`entries, this`blobs
      ensures failed == world(id).Some? && |entries| + 1 == |old(entries)|
      ensures !failed ==> View() == Without(was, gone + {id})
      ensures failed ==> Halted(was, gone, id, world, View())
    {
      MinusOne(entries, id);
      WithoutOneMore(was, gone, id);
      entries := entries - {id};
      var left := world(id);
      if left.Some? {
        blobs := blobs[id := left.value];
        return true;
      }
      blobs := blobs - {id};
      return false;
    }

    /** Delete some entries, in any order, until one removal fails. */
    method DeleteEach(ids: set<Id>, world: Id -> Option<Folder>)
      returns (removed: nat, failed: bool, ghost gone: set<Id>, ghost last: Id)
      requires ids <= entries.Keys
      modifies this`entries, this`blobs
      ensures !failed ==> gone == ids && View() == Without(old(View()), gone)
      ensures failed ==> gone + {last} <= ids && Halted(old(View()), gone, last, world, View())
      ensures removed + |entries| + (if failed then 1 else 0) == |old(entries)|
    {
      removed, failed, gone, last := 0, false, {}, 0;
      ghost var was := View();
      WithoutNothing(was);
      var todo := ids;
      while todo != {}
        invariant Split(ids, todo, gone) && View() == Without(was, gone)
        invariant removed + |entries| == |was.entries|
        decreases todo
      {
        EmptyIfNone(todo);
        var id: Id :| id in todo;
        SplitMoves(ids, todo, gone, id);
        failed := DeleteNext(was, gone, id, world);
        last := id;
        if failed { return; }
        removed, todo, gone := removed + 1, todo - {id}, gone + {id};
      }
      SplitDone(ids, gone);
    }

    /**
     * Age phase. `world` says what each removal leaves behind: nothing, when it succeeds. On failure
     * `gone` were removed before, and `last` is the one whose folder is still there in part.
     */
    method DropExpired(olderThan: int, world: Id -> Option<Folder>)
      returns (removed: nat, failed: bool, ghost gone: set<Id>, ghost last: Id)
      modifies this`entries, this`blobs
      ensures !failed ==> View() == Without(old(View()), gone) && gone == Expired(old(View()), olderThan)
      ensures failed ==> Halted(old(View()), gone, last, world, View())
      ensures failed ==> gone + {last} <= Expired(old(View()), olderThan)
      ensures !failed ==> forall id | id in old(entries) ::
                            id !in entries <==> olderThan > 0 && old(entries)[id].lastUsed < olderThan
      ensures forall id | id in old(entries) && id !in entries ::
                olderThan > 0 && old(entries)[id].lastUsed < olderThan
      ensures removed + |entries| + (if failed then 1 else 0) == |old(entries)|
    {
      removed, failed, gone, last := 0, false, {}, 0;
      if olderThan > 0 {
        var ids := set id | id in entries && entries[id].lastUsed < olderThan;
        removed, failed, gone, last := DeleteEach(ids, world);
      } else {
        WithoutNothing(View());
      }
    }

    /** Delete along `ids` until the total fits. */
    method DeleteUntilFits(ids: seq<Id>, maxBytes: int, world: Id -> Option<Folder>) returns (k: nat, failed: bool)
      requires Removable(View(), ids)
      modifies this`entries, this`blobs
      ensures SizePhase(old(View()), ids, maxBytes, k, failed, world, View())
      ensures !failed ==> Total(blobs) <= maxBytes || k == |ids|
    {
      k, failed := 0, false;
      ghost var was := View();
      ProgressStart(was, ids, maxBytes);
      var total: int := TotalBlobSize();
      ghost var now := was;
      while k < |ids| && total > maxBytes && !failed
        decreases |ids| - k, !failed
        invariant now == View() && k <= |ids| && SizePhase(was, ids, maxBytes, k, failed, world, now)
        invariant !failed ==> total == Total(now.blobs)
      {
        total, failed := DeleteAt(was, ids, maxBytes, k, total, world);
        now := View();
        if !failed { k := k + 1; }
      }
    }

    /** One step of the size phase. */
    method DeleteAt(ghost was: Store, ids: seq<Id>, ghost maxBytes: int, k: nat, total: int,
                    world: Id -> Option<Folder>)
      returns (left: int, failed: bool)
      requires Progress(was, ids, maxBytes, k, View()) && k < |ids| && total == Total(blobs) && total > maxBytes
      requires Removable(was, ids)
      modifies this`entries, this`blobs
      ensures !failed ==> Progress(was, ids, maxBytes, k + 1, View()) && left == Total(blobs)
      ensures failed ==> Stopped(was, ids, maxBytes, k, world, View())
    {
      ghost var now := View();
      var id := ids[k];
      NextIsThere(was, ids, maxBytes, k, now);
      var size := FolderSizeOf(id);
      BlobsShrink(was, First(ids, k), now, id);
      failed := DeleteNext(was, First(ids, k), id, world);
      left := total - size;
      if failed {
        StoppedStep(was, ids, maxBytes, k, world, now, View());
      } else {
        ProgressStep(was, ids, maxBytes, k, now, View());
      }
    }

    /** Size phase: the first entries of a least-recently-used order go. */
    method Shrink(maxBytes: int, world: Id -> Option<Folder>) returns (removed: nat, failed: bool, ghost order: seq<Id>)
      requires forall id | id in entries :: id in blobs
      modifies this`entries, this`blobs
      ensures LruOrder(old(entries), order)
      ensures !failed ==> Shrunk(old(View()), maxBytes, order, removed, View())
      ensures failed ==> maxBytes > 0 && Stopped(old(View()), order, maxBytes, removed, world, View())
      ensures removed + |entries| + (if failed then 1 else 0) == |old(entries)|
    {
      var ids := OrderByLastUsed();
      order := ids;
      OrderedAreStored(View(), ids);
      if maxBytes > 0 {
        removed, failed := DeleteUntilFits(ids, maxBytes, world);
      } else {
        removed, failed := 0, false;
        assert First(order, 0) == {};
        WithoutNothing(View());
      }
    }

    /** The whole eviction; the first failed removal ends it with an error and keeps every other entry. */
    method Evict(olderThan: int, maxBytes: int, world: Id -> Option<Folder>) returns (removed: nat, failed: bool)
      requires forall id | id in entries :: id in blobs
      modifies this`entries, this`blobs
      ensures !failed ==> Evicted(old(View()), olderThan, maxBytes, View())
      ensures removed + |entries| + (if failed then 1 else 0) == |old(entries)|
      ensures Kept(old(View()), View())
      ensures !failed && maxBytes <= 0 ==>
                forall id | id in old(entries) ::
                  id !in entries <==> olderThan > 0 && old(entries)[id].lastUsed < olderThan
      ensures JustlyGone(old(entries), entries, olderThan, maxBytes)
    {
      ghost var was := View();
      ghost var gone, last, order;
      removed, failed, gone, last := DropExpired(olderThan, world);
      if failed {
        HaltedKeepsOthers(was, gone, last, world, View());
        AgeHaltedJustly(was, olderThan, maxBytes, gone, last, world, View());
        return;
      }
      WithoutKeepsOthers(was, gone);
      ghost var aged := View();
      var more;
      more, failed, order := Shrink(maxBytes, world);
      removed := removed + more;
      if failed {
        HaltedKeepsOthers(aged, First(order, more), order[more], world, View());
        SizeHaltedJustly(was, olderThan, maxBytes, order, more, world, View());
      } else {
        WithoutKeepsOthers(aged, First(order, more));
      }
      KeptTrans(was, aged, View());
      if !failed {
        assert Shrunk(Without(was, Expired(was, olderThan)), maxBytes, order, more, View());
        EvictedJustly(was, olderThan, maxBytes, View());
        if maxBytes <= 0 {
          forall id | id in was.entries
            ensures id !in entries <==> olderThan > 0 && was.entries[id].lastUsed < olderThan
          {
            AgeAloneDecides(was, olderThan, maxBytes, View(), id);
          }
        }
      }
    }

    // -------------------------------------------------------------- uploads

    method LookUpload(slot: Slot) returns (found: Option<Id>)
      requires Valid(View())
      ensures found == FindUpload(View(), slot)
    {
      found := None;
      var todo := uploads.Keys;
      while todo != {}
        invariant todo <= uploads.Keys && found.None?
        invariant forall id | Uploading(View(), slot, id) :: id in todo
        decreases todo
      {
        EmptyIfNone(todo);
        var id: Id :| id in todo;
        if uploads[id].slot == slot {
          assert Uploading(View(), slot, id);
          return Some(id);
        }
        todo := todo - {id};
      }
    }

    method LookEntry(slot: Slot) returns (found: Option<Id>)
      requires Valid(View())
      ensures found == FindEntry(View(), slot)
    {
      found := None;
      var todo := entries.Keys;
      while todo != {}
        invariant todo <= entries.Keys && found.None?
        invariant forall id | Stored(View(), slot, id) :: id in todo
        decreases todo
      {
        EmptyIfNone(todo);
        var id: Id :| id in todo;
        if entries[id].slot == slot {
          assert Stored(View(), slot, id);
          return Some(id);
        }
        todo := todo - {id};
      }
    }

    /** `id` is the random id drawn for a new upload. */
    method CreateUpload(slot: Slot, id: Id) returns (created: bool)
      requires Valid(View()) && Enabled(View(), OpCreate(slot, id))
      modifies this`uploads
      ensures View() == Apply(old(View()), OpCreate(slot, id)) && Valid(View())
      ensures created <==> forall other | other in old(uploads) :: old(uploads)[other].slot != slot
      ensures uploads == if created then old(uploads)[id := Upload(slot, 0, 0)] else old(uploads)
    {
      ApplyKeepsValid(View(), OpCreate(slot, id));
      var existing := LookUpload(slot);
      assert forall other | other in uploads && uploads[other].slot == slot :: Uploading(View(), slot, other);
      if existing.Some? { return false; }
      uploads := uploads[id := Upload(slot, 0, 0)];
      return true;
    }

    /** `left` is what reached the file, if it could be created. */
    method UploadPart(id: Id, index: int, left: Option<Bytes>, ok: bool)
      requires Valid(View()) && Enabled(View(), OpPart(id, index, left, ok))
      modifies this`uploads, this`blobs
      ensures View() == Apply(old(View()), OpPart(id, index, left, ok)) && Valid(View())
      ensures id !in old(uploads) ==> uploads == old(uploads) && blobs == old(blobs)
      ensures id in old(uploads) ==>
        var up, folder := old(uploads)[id], if id in old(blobs) then old(blobs)[id] else map[];
        && uploads == old(uploads)[id := Upload(up.slot, up.started + 1, up.finished + if ok then 1 else 0)]
        && blobs == if left.Some? then old(blobs)[id := folder[index := left.value]] else old(blobs)
    {
      ApplyKeepsValid(View(), OpPart(id, index, left, ok));
      if id !in uploads { return; }
      uploads := uploads[id := uploads[id].(started := uploads[id].started + 1)];
      if left.None? { return; }
      var folder := if id in blobs then blobs[id] else map[];
      blobs := blobs[id := folder[index := left.value]];
      if !ok { return; }
      uploads := uploads[id := uploads[id].(finished := uploads[id].finished + 1)];
    }

    method RequireContiguousParts(folder: Folder, count: nat) returns (ok: bool)
      ensures ok <==> Contiguous(folder, count)
    {
      for i := 0 to count
        invariant forall j | 0 <= j < i :: j in folder
      {
        if i !in folder { return false; }
      }
      return true;
    }

    method CompleteUpload(slot: Slot, now: int, swept: Option<Folder>) returns (result: Completion)
      requires Valid(View())
      modifies this
      ensures result == Completes(old(View()), slot)
      ensures View() == Apply(old(View()), OpComplete(slot, now, swept)) && Valid(View())
      ensures !result.Promoted? ==> entries == old(entries) && blobs == old(blobs)
      ensures result.NoUpload? <==> forall id | id in old(uploads) :: old(uploads)[id].slot != slot
      ensures result.NoParts? <==> exists id :: id in old(uploads) && old(uploads)[id].slot == slot &&
                                                old(uploads)[id].finished == 0
      ensures forall id :: id in uploads <==> id in old(uploads) && old(uploads)[id].slot != slot
      ensures result.Promoted? ==>
                && result.id in old(uploads) && old(uploads)[result.id].slot == slot
                && uploads == old(uploads) - {result.id}
                && Replaced(old(entries), entries, slot, result.id, old(uploads)[result.id].finished, now)
    {
      ApplyKeepsValid(View(), OpComplete(slot, now, swept));
      CompletionReplaces(View(), slot, now, swept);
      var found := LookUpload(slot);
      if found.None? { return NoUpload; }
      var id := found.value;
      var up := uploads[id];
      if up.finished == 0 {
        uploads := uploads - {id};
        return NoParts;
      }
      if up.started != up.finished {
        uploads := uploads - {id};
        return Mismatch;
      }
      var folder := if id in blobs then blobs[id] else map[];
      var contiguous := RequireContiguousParts(folder, up.finished);
      if |folder| != up.finished || !contiguous {
        uploads := uploads - {id};
        return Mismatch;
      }
      var prior := LookEntry(slot);
      Replace(slot, id, prior, now, swept);
      return Promoted(id);
    }

    /** Repoint the slot's entry to the upload's folder and drop the folder it replaces. */
    method Replace(slot: Slot, id: Id, prior: Option<Id>, now: int, swept: Option<Folder>)
      requires id in uploads
      modifies this
      ensures View() == Promote(old(View()), slot, id, prior, now, swept)
    {
      var parts := uploads[id].finished;
      if prior.Some? {
        entries := entries - {prior.value};
        if prior.value != id {
          blobs := if swept.Some? then blobs[prior.value := swept.value] else blobs - {prior.value};
        }
      }
      entries := entries[id := Entry(slot, parts, now, now)];
      uploads := uploads - {id};
    }

    /** A match is touched, so that eviction sees the restore; a failed touch is ignored. */
    method Restore(q: Request, now: int, touched: bool) returns (found: Option<Id>)
      modifies this`entries
      ensures found.Some? ==> Best(old(entries), q, found.value)
      ensures found.None? ==> forall id :: !Best(old(entries), q, id)
      ensures View() == if found.Some? && touched then Apply(old(View()), OpTouch(found.value, now)) else old(View())
      ensures entries == if found.Some? && touched
                         then old(entries)[found.value := old(entries)[found.value].(lastUsed := now)]
                         else old(entries)
    {
      found := MatchEntry(entries, q);
      if found.Some? && touched {
        entries := entries[found.value := entries[found.value].(lastUsed := now)];
      }
    }

    // -------------------------------------------------------------- downloads

    /** A download of an entry by its id, whatever the caller's buffers and whatever fails on the way. */
    method Download(id: Id, sizes: nat -> nat, wants: nat -> nat, early: nat -> bool, faults: (nat, nat) -> bool)
      returns (content: Option<Bytes>, failed: bool)
      requires Valid(View()) && forall k :: sizes(k) > 0
      ensures content.Some? <==> id in entries
      ensures content.Some? ==>
                && Readable(View(), id)
                && Delivered(content.value, failed, Concat(blobs[id], 0, entries[id].partCount), faults)
    {
      failed := false;
      if id !in entries { return None, false; }
      assert Readable(View(), id);
      var all;
      all, failed := ReadAll(blobs[id], entries[id].partCount, sizes, wants, early, faults);
      content := Some(all);
    }

    /**
     * The whole way round: parts sent among any traffic, finalized, and downloaded after any further
     * operations that leave the entry's row.
     */
    method DownloadUploaded(ghost s: Store, ghost up: Uploaded, id: Id, ghost later: seq<Op>,
                            sizes: nat -> nat, wants: nat -> nat, early: nat -> bool, faults: (nat, nat) -> bool)
      returns (content: Bytes, failed: bool)
      requires Uploads(s, up, id) && Legal(Finalized(s, up, id), later) && RowStays(Finalized(s, up, id), later, id)
      requires View() == Exec(Finalized(s, up, id), later) && forall k :: sizes(k) > 0
      ensures Delivered(content, failed, Joined(up.data), faults)
    {
      StoredReadsBack(s, up, id, later);
      var found;
      found, failed := Download(id, sizes, wants, early, faults);
      content := found.value;
    }
  }
}
