/** Eviction: entries unused for too long first, then least recently used ones until the blobs fit. */
module CacheEvict {
  import opened Common
  import opened CacheStore

  // ---------------------------------------------------------------- sizes

  ghost function SumOf<K>(m: map<K, nat>): nat
    decreases |m|
  {
    if m == map[] then 0 else var k :| k in m; m[k] + SumOf(m - {k})
  }

  /** The sum does not depend on the order the map is walked in. */
  lemma {:induction false} SumSplit<K>(m: map<K, nat>, k: K)
    requires k in m
    ensures SumOf(m) == m[k] + SumOf(m - {k})
    decreases |m|
  {
    var p :| p in m && SumOf(m) == m[p] + SumOf(m - {p});
    if p != k {
      SumSplit(m - {p}, k);
      SumSplit(m - {k}, p);
      assert m - {p} - {k} == m - {k} - {p};
    }
  }

  function Sizes(f: Folder): map<int, nat> {
    map i | i in f :: |f[i]|
  }

  ghost function FolderSize(f: Folder): nat {
    SumOf(Sizes(f))
  }

  ghost function BlobSizes(blobs: map<Id, Folder>): map<Id, nat> {
    map id | id in blobs :: FolderSize(blobs[id])
  }

  /** Everything under the blob root, including uploads in progress and abandoned ones. */
  ghost function Total(blobs: map<Id, Folder>): nat {
    SumOf(BlobSizes(blobs))
  }

  lemma TotalWithout(blobs: map<Id, Folder>, id: Id)
    requires id in blobs
    ensures Total(blobs) == FolderSize(blobs[id]) + Total(blobs - {id})
  {
    SumSplit(BlobSizes(blobs), id);
    assert BlobSizes(blobs) - {id} == BlobSizes(blobs - {id});
  }

  // ---------------------------------------------------------------- what a successful eviction does

  function Without(s: Store, ids: set<Id>): Store {
    s.(entries := s.entries - ids, blobs := s.blobs - ids)
  }

  function First(order: seq<Id>, k: nat): set<Id>
    requires k <= |order|
  {
    set id | id in order[..k]
  }

  lemma MinusTwice<K, V>(m: map<K, V>, gone: set<K>, k: K)
    ensures m - gone - {k} == m - (gone + {k})
  {}

  lemma MinusOne<K, V>(m: map<K, V>, k: K)
    requires k in m
    ensures |m| == |m - {k}| + 1
  {
    assert m.Keys == (m - {k}).Keys + {k};
  }

  lemma MinusNone<K, V>(m: map<K, V>)
    ensures m - {} == m
  {}

  lemma WithoutNothing(s: Store)
    ensures Without(s, {}) == s
  {
    MinusNone(s.entries);
    MinusNone(s.blobs);
  }

  lemma WithoutOneMore(s: Store, gone: set<Id>, id: Id)
    requires id in s.entries && id !in gone
    ensures s.entries - gone - {id} == s.entries - (gone + {id}) && s.blobs - gone - {id} == s.blobs - (gone + {id})
    ensures |(s.entries - gone)| == |(s.entries - (gone + {id}))| + 1
  {
    MinusTwice(s.entries, gone, id);
    MinusTwice(s.blobs, gone, id);
    MinusOne(s.entries - gone, id);
  }

  lemma BlobsShrink(s: Store, gone: set<Id>, now: Store, id: Id)
    requires now == Without(s, gone) && id in now.blobs
    ensures Total(now.blobs) == FolderSize(FolderOf(now, id)) + Total(Without(s, gone + {id}).blobs)
  {
    TotalWithout(now.blobs, id);
    MinusTwice(s.blobs, gone, id);
  }

  lemma WithoutKeepsValid(s: Store, gone: set<Id>)
    requires Valid(s) && gone <= s.entries.Keys
    ensures Valid(Without(s, gone))
  {
    FewerUploads(s, Without(s, gone));
    FewerEntries(s, Without(s, gone));
    SameReadable(s, Without(s, gone));
  }

  function Expired(s: Store, olderThan: int): set<Id> {
    if olderThan > 0 then set id | id in s.entries && s.entries[id].lastUsed < olderThan else {}
  }

  /** Every entry once, least recently used first; ties in any order. */
  predicate LruOrder(entries: map<Id, Entry>, order: seq<Id>) {
    && (forall id | id in order :: id in entries)
    && (forall id | id in entries :: id in order)
    && (forall i, j | 0 <= i < j < |order| :: order[i] != order[j])
    && (forall i, j | 0 <= i < j < |order| && order[i] in entries && order[j] in entries ::
          entries[order[i]].lastUsed <= entries[order[j]].lastUsed)
  }

  lemma OrderedAreStored(s: Store, order: seq<Id>)
    requires LruOrder(s.entries, order) && forall id | id in s.entries :: id in s.blobs
    ensures Removable(s, order)
  {
    assert forall i | 0 <= i < |order| :: order[i] in order;
  }

  /** Removing only the first `j` would not do. */
  ghost predicate TooBig(s: Store, order: seq<Id>, j: nat, maxBytes: int) {
    j <= |order| && Total(s.blobs - First(order, j)) > maxBytes
  }

  /** The first `k` of the order are gone, and no fewer would have done. */
  ghost predicate Shrunk(s: Store, maxBytes: int, order: seq<Id>, k: nat, s': Store) {
    && LruOrder(s.entries, order) && k <= |order| && s' == Without(s, First(order, k))
    && (maxBytes <= 0 ==> k == 0)
    && (maxBytes > 0 ==> Total(s'.blobs) <= maxBytes || k == |order|)
    && (forall j | 0 <= j < k :: TooBig(s, order, j, maxBytes))
  }

  ghost predicate Evicted(s: Store, olderThan: int, maxBytes: int, s': Store) {
    exists order, k :: Shrunk(Without(s, Expired(s, olderThan)), maxBytes, order, k, s')
  }

  /** An eviction that failed half way: `gone` are removed, and `last` all but its folder. */
  predicate Halted(s: Store, gone: set<Id>, last: Id, world: Id -> Option<Folder>, s': Store) {
    && last in s.entries && last !in gone && world(last).Some?
    && s'.uploads == s.uploads && s'.entries == s.entries - gone - {last}
    && s'.blobs == (s.blobs - gone)[last := world(last).value]
  }

  lemma LeastRecentlyUsedGo(s: Store, maxBytes: int, order: seq<Id>, k: nat, s': Store, gone: Id, kept: Id)
    requires Shrunk(s, maxBytes, order, k, s') && gone in s.entries && gone !in s'.entries && kept in s'.entries
    ensures s.entries[gone].lastUsed <= s.entries[kept].lastUsed
  {
    var i :| 0 <= i < k && order[i] == gone;
    assert kept in order && kept !in First(order, k);
    var j :| 0 <= j < |order| && order[j] == kept;
    assert kept !in order[..k];
    assert forall i | 0 <= i < k :: order[i] in order[..k];
  }

  lemma HaltedKeepsOthers(s: Store, gone: set<Id>, last: Id, world: Id -> Option<Folder>, s': Store)
    requires Halted(s, gone, last, world, s') && forall id | id in s.entries :: id in s.blobs
    ensures Kept(s, s')
  {}

  lemma WithoutKeepsOthers(s: Store, gone: set<Id>)
    requires forall id | id in s.entries :: id in s.blobs
    ensures Kept(s, Without(s, gone))
  {}

  /** Every entry still there is as before, with its blobs. */
  predicate Kept(s: Store, s': Store) {
    && s'.uploads == s.uploads
    && forall id | id in s'.entries ::
         id in s.entries && s'.entries[id] == s.entries[id] &&
         id in s.blobs && id in s'.blobs && s'.blobs[id] == s.blobs[id]
  }

  lemma KeptTrans(s: Store, t: Store, u: Store)
    requires Kept(s, t) && Kept(t, u)
    ensures Kept(s, u)
  {}

  lemma RemovalGuarantees(s: Store, gone: set<Id>)
    requires Valid(s) && gone <= s.entries.Keys
    ensures Valid(Without(s, gone)) && Kept(s, Without(s, gone))
    ensures Untouched(s, Without(s, gone))
  {
    assert forall id | id in s.entries :: Readable(s, id);
    WithoutKeepsValid(s, gone);
    WithoutKeepsOthers(s, gone);
  }

  /** Folders that belong to no entry stay, and those of removed entries go. */
  predicate Untouched(s: Store, s': Store) {
    && (forall id | id in s.blobs && id !in s.entries :: id in s'.blobs && s'.blobs[id] == s.blobs[id])
    && (forall id | id in s.entries && id !in s'.entries :: id !in s'.blobs)
  }

  lemma ShrinkGuarantees(s: Store, maxBytes: int, order: seq<Id>, k: nat, s': Store)
    requires Valid(s) && Shrunk(s, maxBytes, order, k, s')
    ensures Valid(s') && Kept(s, s') && Untouched(s, s')
    ensures maxBytes > 0 ==> Total(s'.blobs) <= maxBytes || s'.entries == map[]
  {
    assert forall id | id in First(order, k) :: id in order;
    RemovalGuarantees(s, First(order, k));
    if k == |order| {
      assert order[..k] == order;
      EmptyIfNone(s'.entries.Keys);
    }
  }

  /**
   * After a successful eviction no entry is past its age; with a cap, the blobs fit or no entry is
   * left; and uploads, abandoned folders and kept entries are untouched.
   */
  lemma EvictionGuarantees(s: Store, olderThan: int, maxBytes: int, s': Store)
    requires Valid(s) && Evicted(s, olderThan, maxBytes, s')
    ensures Valid(s')
    ensures olderThan > 0 ==> forall id | id in s'.entries :: s'.entries[id].lastUsed >= olderThan
    ensures maxBytes > 0 ==> Total(s'.blobs) <= maxBytes || s'.entries == map[]
    ensures Kept(s, s') && Untouched(s, s')
  {
    var gone := Expired(s, olderThan);
    var aged := Without(s, gone);
    var order, k :| Shrunk(aged, maxBytes, order, k, s');
    RemovalGuarantees(s, gone);
    ShrinkGuarantees(aged, maxBytes, order, k, s');
    KeptTrans(s, aged, s');
  }

  /** An entry that goes without being past its age was used no later than any that stays. */
  lemma EvictionIsLru(s: Store, olderThan: int, maxBytes: int, s': Store, gone: Id, kept: Id)
    requires Evicted(s, olderThan, maxBytes, s') && gone in s.entries && gone !in s'.entries && kept in s'.entries
    ensures (olderThan > 0 && s.entries[gone].lastUsed < olderThan) ||
            s.entries[gone].lastUsed <= s.entries[kept].lastUsed
  {
    var aged := Without(s, Expired(s, olderThan));
    var order, k :| Shrunk(aged, maxBytes, order, k, s');
    if gone in aged.entries { LeastRecentlyUsedGo(aged, maxBytes, order, k, s', gone, kept); }
  }

  /** Without a cap exactly the entries past their age go. */
  lemma AgeAloneDecides(s: Store, olderThan: int, maxBytes: int, s': Store, id: Id)
    requires Evicted(s, olderThan, maxBytes, s') && maxBytes <= 0 && id in s.entries
    ensures id !in s'.entries <==> olderThan > 0 && s.entries[id].lastUsed < olderThan
  {}

  /** What went, went for its age or before everything that was used later. */
  predicate JustlyGone(was: map<Id, Entry>, now: map<Id, Entry>, olderThan: int, maxBytes: int) {
    && (maxBytes <= 0 ==> forall id | id in was && id !in now :: olderThan > 0 && was[id].lastUsed < olderThan)
    && (forall id, kept | id in was && id !in now && kept in now && kept in was ::
          (olderThan > 0 && was[id].lastUsed < olderThan) || was[id].lastUsed <= was[kept].lastUsed)
  }

  lemma EvictedJustly(s: Store, olderThan: int, maxBytes: int, s': Store)
    requires Evicted(s, olderThan, maxBytes, s')
    ensures JustlyGone(s.entries, s'.entries, olderThan, maxBytes)
  {
    if maxBytes <= 0 {
      forall id | id in s.entries && id !in s'.entries ensures olderThan > 0 && s.entries[id].lastUsed < olderThan {
        AgeAloneDecides(s, olderThan, maxBytes, s', id);
      }
    }
    forall id, kept | id in s.entries && id !in s'.entries && kept in s'.entries
      ensures (olderThan > 0 && s.entries[id].lastUsed < olderThan) ||
              s.entries[id].lastUsed <= s.entries[kept].lastUsed
    {
      EvictionIsLru(s, olderThan, maxBytes, s', id, kept);
    }
  }

  /** A removal that failed leaves no other order: the age phase takes only what is past its age. */
  lemma AgeHaltedJustly(s: Store, olderThan: int, maxBytes: int, gone: set<Id>, last: Id,
                        world: Id -> Option<Folder>, s': Store)
    requires Halted(s, gone, last, world, s') && gone + {last} <= Expired(s, olderThan)
    ensures JustlyGone(s.entries, s'.entries, olderThan, maxBytes)
  {
    assert last in gone + {last};
    forall id | id in s.entries && id !in s'.entries ensures olderThan > 0 && s.entries[id].lastUsed < olderThan {
      assert id in gone + {last};
    }
  }

  lemma SizeHaltedJustly(s: Store, olderThan: int, maxBytes: int, order: seq<Id>, k: nat,
                         world: Id -> Option<Folder>, s': Store)
    requires maxBytes > 0 && LruOrder(Without(s, Expired(s, olderThan)).entries, order)
    requires Stopped(Without(s, Expired(s, olderThan)), order, maxBytes, k, world, s')
    ensures JustlyGone(s.entries, s'.entries, olderThan, maxBytes)
  {
    var aged := Without(s, Expired(s, olderThan));
    forall id, kept | id in s.entries && id !in s'.entries && kept in s'.entries && kept in s.entries
      ensures (olderThan > 0 && s.entries[id].lastUsed < olderThan) ||
              s.entries[id].lastUsed <= s.entries[kept].lastUsed
    {
      if id in aged.entries { HaltedInOrder(aged, order, k, world, s', id, kept); }
    }
  }

  lemma HaltedInOrder(s: Store, order: seq<Id>, k: nat, world: Id -> Option<Folder>, s': Store, gone: Id, kept: Id)
    requires LruOrder(s.entries, order) && k < |order| && Halted(s, First(order, k), order[k], world, s')
    requires gone in s.entries && gone !in s'.entries && kept in s'.entries
    ensures s.entries[gone].lastUsed <= s.entries[kept].lastUsed
  {
    var i :| 0 <= i <= k && order[i] == gone;
    assert kept in order && kept !in First(order, k);
    var j :| 0 <= j < |order| && order[j] == kept;
    assert kept !in order[..k];
    assert forall i | 0 <= i < k :: order[i] in order[..k];
  }

  /** The size of a finalized entry's folder is the length of its content. */
  lemma SizeIsContent(s: Store, id: Id)
    requires Readable(s, id)
    ensures FolderSize(s.blobs[id]) == |Concat(s.blobs[id], 0, s.entries[id].partCount)|
  {
    var f, n := s.blobs[id], s.entries[id].partCount;
    PartsSize(f, 0, n);
    assert PartSizes(f, 0, n) == Sizes(f);
  }

  function PartSizes(f: Folder, from: nat, n: nat): map<int, nat>
    requires from <= n && forall i | from <= i < n :: i in f
  {
    map i | from <= i < n :: |f[i]|
  }

  lemma {:induction false} PartsSize(f: Folder, from: nat, n: nat)
    requires from <= n && forall i | from <= i < n :: i in f
    ensures SumOf(PartSizes(f, from, n)) == |Concat(f, from, n)|
    decreases n - from
  {
    if from < n {
      PartsSize(f, from + 1, n);
      SumSplit(PartSizes(f, from, n), from);
      assert PartSizes(f, from, n) - {from} == PartSizes(f, from + 1, n);
    } else {
      assert PartSizes(f, from, n) == map[];
    }
  }

  /** The size phase stops as soon as it may: keeping the last removed entry too would not fit. */
  lemma NoneEvictedNeedlessly(s: Store, maxBytes: int, order: seq<Id>, k: nat, s': Store)
    requires Valid(s) && Shrunk(s, maxBytes, order, k, s') && k > 0
    ensures var last := order[k - 1];
      && last in s.entries && last in s.blobs && last !in s'.entries
      && Total(s'.blobs) + FolderSize(s.blobs[last]) > maxBytes
  {
    assert TooBig(s, order, k - 1, maxBytes);
    var last := order[k - 1];
    assert last in order && Readable(s, last);
    FirstGrows(order, k - 1);
    assert last !in First(order, k - 1);
    MinusTwice(s.blobs, First(order, k - 1), last);
    TotalWithout(Without(s, First(order, k - 1)).blobs, last);
  }

  lemma FirstGrows(order: seq<Id>, k: nat)
    requires k < |order|
    ensures First(order, k + 1) == First(order, k) + {order[k]}
  {
    assert order[..k + 1] == order[..k] + [order[k]];
  }

  /** The size phase after `k` removals. */
  ghost predicate Progress(was: Store, ids: seq<Id>, maxBytes: int, k: nat, s: Store) {
    && k <= |ids| && s == Without(was, First(ids, k)) && k + |s.entries| == |was.entries|
    && forall j | 0 <= j < k :: TooBig(was, ids, j, maxBytes)
  }

  /** The size phase after `k` removals and one that failed. */
  ghost predicate Stopped(was: Store, ids: seq<Id>, maxBytes: int, k: nat, world: Id -> Option<Folder>, s: Store) {
    && k < |ids| && Halted(was, First(ids, k), ids[k], world, s) && k + 1 + |s.entries| == |was.entries|
    && forall j | 0 <= j <= k :: TooBig(was, ids, j, maxBytes)
  }

  /** The size phase, stopped by a removal that failed or not. */
  ghost predicate SizePhase(was: Store, ids: seq<Id>, maxBytes: int, k: nat, failed: bool,
                            world: Id -> Option<Folder>, s: Store) {
    if failed then Stopped(was, ids, maxBytes, k, world, s) else Progress(was, ids, maxBytes, k, s)
  }

  /** Distinct entries, all of them with a folder. */
  predicate Removable(s: Store, ids: seq<Id>) {
    && (forall i | 0 <= i < |ids| :: ids[i] in s.entries && ids[i] in s.blobs)
    && (forall i, j | 0 <= i < j < |ids| :: ids[i] != ids[j])
  }

  lemma ProgressStart(s: Store, ids: seq<Id>, maxBytes: int)
    ensures Progress(s, ids, maxBytes, 0, s)
  {
    WithoutNothing(s);
    assert First(ids, 0) == {};
  }

  lemma NextIsThere(was: Store, ids: seq<Id>, maxBytes: int, k: nat, s: Store)
    requires Progress(was, ids, maxBytes, k, s) && k < |ids| && Removable(was, ids)
    ensures ids[k] !in First(ids, k) && ids[k] in s.entries && ids[k] in s.blobs
  {}

  lemma ProgressStep(was: Store, ids: seq<Id>, maxBytes: int, k: nat, s: Store, s': Store)
    requires Progress(was, ids, maxBytes, k, s) && k < |ids| && Total(s.blobs) > maxBytes
    requires s' == Without(was, First(ids, k) + {ids[k]}) && |s'.entries| + 1 == |s.entries|
    ensures Progress(was, ids, maxBytes, k + 1, s')
  {
    FirstGrows(ids, k);
    assert TooBig(was, ids, k, maxBytes);
  }

  lemma StoppedStep(was: Store, ids: seq<Id>, maxBytes: int, k: nat, world: Id -> Option<Folder>, s: Store, s': Store)
    requires Progress(was, ids, maxBytes, k, s) && k < |ids| && Total(s.blobs) > maxBytes
    requires Halted(was, First(ids, k), ids[k], world, s') && |s'.entries| + 1 == |s.entries|
    ensures Stopped(was, ids, maxBytes, k, world, s')
  {
    assert TooBig(was, ids, k, maxBytes);
  }
}
