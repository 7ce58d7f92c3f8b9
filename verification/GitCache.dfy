/** Reference counts of cache entries, one slot for each owner and git reference
    (src/cache_git_directory.cpp). */
module GitCache {

  datatype Owner = NodeOwner(node: int) | RuleOwner(rule: int)

  /** A cache entry; entries are referred to by numbers that stand for their addresses. */
  datatype Entry = Entry(hash: string, numGitRefs: nat)

  /** The reference map of every owner: from a git reference to an entry. */
  type RefMaps = map<Owner, map<string, nat>>

  datatype Slot = Slot(owner: Owner, ref: string)

  ghost predicate Points(maps: RefMaps, s: Slot, id: nat) {
    s.owner in maps && s.ref in maps[s.owner] && maps[s.owner][s.ref] == id
  }

  /** The slots that point to an entry. */
  ghost function SlotsOf(maps: RefMaps, id: nat): set<Slot> {
    set o, r | o in maps && r in maps[o] && maps[o][r] == id :: Slot(o, r)
  }

  /** The hash map and the entries name each other. */
  ghost predicate Indexed(entries: map<nat, Entry>, byHash: map<string, nat>, next: nat) {
    && (forall h :: h in byHash ==> byHash[h] in entries && entries[byHash[h]].hash == h)
    && (forall id :: id in entries ==> id < next && entries[id].hash in byHash && byHash[entries[id].hash] == id)
  }

  /** Every count is the number of slots, and no entry without a slot is kept. */
  ghost predicate Counted(entries: map<nat, Entry>, maps: RefMaps) {
    forall id :: id in entries ==> entries[id].numGitRefs == |SlotsOf(maps, id)| && entries[id].numGitRefs > 0
  }

  /** No slot points to a deleted entry. */
  ghost predicate NoDangling(entries: map<nat, Entry>, maps: RefMaps) {
    forall o, r :: o in maps && r in maps[o] ==> maps[o][r] in entries
  }

  /** The maps after a slot has been set. */
  function Set(maps: RefMaps, s: Slot, id: nat): RefMaps {
    maps[s.owner := (if s.owner in maps then maps[s.owner] else map[])[s.ref := id]]
  }

  lemma PointsIffSlot(maps: RefMaps, s: Slot, id: nat)
    ensures s in SlotsOf(maps, id) <==> Points(maps, s, id)
  {
    if Points(maps, s, id) {
      assert s == Slot(s.owner, s.ref);
    }
  }

  lemma SetSlots(maps: RefMaps, s: Slot, id: nat, k: nat)
    ensures SlotsOf(Set(maps, s, id), k) == if k == id then SlotsOf(maps, k) + {s} else SlotsOf(maps, k) - {s}
  {
    hide SlotsOf;
    forall x ensures x in SlotsOf(Set(maps, s, id), k)
        <==> x in if k == id then SlotsOf(maps, k) + {s} else SlotsOf(maps, k) - {s} {
      PointsIffSlot(maps, x, k);
      PointsIffSlot(Set(maps, s, id), x, k);
    }
  }

  lemma SlotCount(maps: RefMaps, s: Slot, id: nat, k: nat)
    ensures |SlotsOf(Set(maps, s, id), k)|
         == |SlotsOf(maps, k)| + (if k == id then 1 else 0) - (if Points(maps, s, k) then 1 else 0)
  {
    hide SlotsOf, Points, Set;
    SetSlots(maps, s, id, k);
    PointsIffSlot(maps, s, k);
  }

  /** As Counted, but entry `e` may be new and without a slot. */
  ghost predicate CountedBut(entries: map<nat, Entry>, maps: RefMaps, e: nat) {
    forall id :: id in entries ==>
        entries[id].numGitRefs == |SlotsOf(maps, id)|
        && (entries[id].numGitRefs > 0 || id == e)
  }

  lemma NewEntry(entries: map<nat, Entry>, byHash: map<string, nat>, next: nat, maps: RefMaps, hash: string)
    requires Indexed(entries, byHash, next) && Counted(entries, maps) && NoDangling(entries, maps) && hash !in byHash
    ensures var after := entries[next := Entry(hash, 0)];
            && Indexed(after, byHash[hash := next], next + 1) && CountedBut(after, maps, next)
                && NoDangling(after, maps)
            && next !in entries && SlotsOf(maps, next) == {}
  {
    hide SlotsOf;
    forall s ensures s !in SlotsOf(maps, next) {
      PointsIffSlot(maps, s, next);
    }
    assert SlotsOf(maps, next) == {};
  }

  /** The count of an entry after slot `s` has been set to `e`. */
  function Moved(entries: map<nat, Entry>, maps: RefMaps, s: Slot, e: nat, id: nat): int
    requires id in entries
  {
    entries[id].numGitRefs + (if id == e then 1 else 0)
    - (if s.owner in maps && s.ref in maps[s.owner] && maps[s.owner][s.ref] == id then 1 else 0)
  }

  lemma MovesSlot(entries: map<nat, Entry>, maps: RefMaps, s: Slot, e: nat, id: nat)
    requires CountedBut(entries, maps, e) && id in entries
    ensures Moved(entries, maps, s, e, id) == |SlotsOf(Set(maps, s, e), id)|
    ensures Moved(entries, maps, s, e, id) >= 0
    ensures SlotsOf(maps, id) != {} || id == e
    ensures Moved(entries, maps, s, e, id) == 0 <==> SlotsOf(Set(maps, s, e), id) == {}
    ensures Points(maps, s, id) ==> entries[id].numGitRefs > 0
  {
    hide SlotsOf, Set;
    SlotCount(maps, s, e, id);
    PointsIffSlot(maps, s, id);
    EmptyIff(SlotsOf(maps, id));
    EmptyIff(SlotsOf(Set(maps, s, e), id));
  }

  lemma EmptyIff(s: set<Slot>)
    ensures |s| == 0 <==> s == {}
  {
  }

  /** The entries that remain, with their new counts. */
  ghost predicate Settled(before: map<nat, Entry>, after: map<nat, Entry>, maps: RefMaps, s: Slot, e: nat) {
    && (forall id :: id in before ==> (id in after <==> Moved(before, maps, s, e, id) != 0))
    && (forall id :: id in after ==> id in before && after[id] == Entry(before[id].hash, after[id].numGitRefs)
                                     && after[id].numGitRefs == Moved(before, maps, s, e, id))
  }

  lemma SettledIsCounted(before: map<nat, Entry>, after: map<nat, Entry>, maps: RefMaps, s: Slot, e: nat)
    requires CountedBut(before, maps, e) && NoDangling(before, maps) && Settled(before, after, maps, s, e)
             && e in before
    ensures Counted(after, Set(maps, s, e)) && NoDangling(after, Set(maps, s, e))
  {
    hide SlotsOf, Set, Moved;
    forall id | id in after ensures after[id].numGitRefs == |SlotsOf(Set(maps, s, e), id)| && after[id].numGitRefs > 0 {
      MovesSlot(before, maps, s, e, id);
    }
    var m := Set(maps, s, e);
    forall o, r | o in m && r in m[o] ensures m[o][r] in after {
      var id := m[o][r];
      PointsIffSlot(m, Slot(o, r), id);
      KnownSlot(before, maps, s, e, o, r);
      MovesSlot(before, maps, s, e, id);
    }
  }

  lemma KnownSlot(entries: map<nat, Entry>, maps: RefMaps, s: Slot, e: nat, o: Owner, r: string)
    requires NoDangling(entries, maps) && e in entries && o in Set(maps, s, e) && r in Set(maps, s, e)[o]
    ensures Set(maps, s, e)[o][r] in entries
  {
  }

  function Add(entries: map<nat, Entry>, id: nat, n: int): map<nat, Entry>
    requires id in entries && entries[id].numGitRefs + n >= 0
  {
    entries[id := Entry(entries[id].hash, entries[id].numGitRefs + n)]
  }

  predicate HasPrev(maps: RefMaps, s: Slot) { s.owner in maps && s.ref in maps[s.owner] }

  lemma SettledWithoutPrev(entries: map<nat, Entry>, maps: RefMaps, s: Slot, e: nat)
    requires CountedBut(entries, maps, e) && e in entries && !HasPrev(maps, s)
    ensures Settled(entries, Add(entries, e, 1), maps, s, e)
  {
    hide SlotsOf;
  }

  lemma SettledWithPrev(entries: map<nat, Entry>, maps: RefMaps, s: Slot, e: nat)
    requires CountedBut(entries, maps, e) && NoDangling(entries, maps) && e in entries && HasPrev(maps, s)
    ensures var prev := maps[s.owner][s.ref];
            && prev in entries && entries[prev].numGitRefs > 0
            && (entries[prev].numGitRefs > 1 || prev == e ==>
                Settled(entries, Add(Add(entries, prev, -1), e, 1), maps, s, e))
            && (entries[prev].numGitRefs == 1 && prev != e ==>
                Settled(entries, Add(Add(entries, prev, -1) - {prev}, e, 1), maps, s, e))
  {
    hide SlotsOf;
    MovesSlot(entries, maps, s, e, maps[s.owner][s.ref]);
  }

  lemma KeepsIndex(entries: map<nat, Entry>, byHash: map<string, nat>, next: nat, id: nat)
    requires Indexed(entries, byHash, next) && id in entries
    ensures forall n: int :: entries[id].numGitRefs + n >= 0 ==> Indexed(Add(entries, id, n), byHash, next)
    ensures Indexed(entries - {id}, byHash - {entries[id].hash}, next)
  {
  }

  /** An entry goes exactly when the last slot that points to it moves elsewhere. */
  lemma LastSlotGone(before: map<nat, Entry>, after: map<nat, Entry>, maps: RefMaps, s: Slot, e: nat)
    requires CountedBut(before, maps, e) && Settled(before, after, maps, s, e) && e in before
    ensures forall id :: id in before ==> (id !in after <==> SlotsOf(Set(maps, s, e), id) == {})
    ensures e in after && forall id :: id in after ==> id in before && after[id].hash == before[id].hash
  {
    hide SlotsOf, Set, CountedBut, Moved;
    forall id | id in before ensures id !in after <==> SlotsOf(Set(maps, s, e), id) == {} {
      MovesSlot(before, maps, s, e, id);
    }
    HasSlot(maps, s, e);
  }

  lemma HasSlot(maps: RefMaps, s: Slot, e: nat)
    ensures SlotsOf(Set(maps, s, e), e) != {}
  {
    hide SlotsOf;
    SetSlots(maps, s, e, e);
    assert s in SlotsOf(Set(maps, s, e), e);
  }

  lemma Lookup(entries: map<nat, Entry>, byHash: map<string, nat>, next: nat, id: nat)
    requires Indexed(entries, byHash, next)
    ensures id in entries ==> entries[id].hash in byHash && byHash[entries[id].hash] == id
  {
  }

  class CacheGitDirectory {
    var currentGitRef: string
    var maps: RefMaps
    var byHash: map<string, nat>
    var entries: map<nat, Entry>
    var next: nat
    var deleted: seq<string>

    ghost predicate Valid()
      reads this
    {
      Indexed(entries, byHash, next) && Counted(entries, maps) && NoDangling(entries, maps)
    }

    constructor ()
      ensures Valid() && currentGitRef == "" && maps == map[] && entries == map[] && deleted == []
    {
      currentGitRef, maps, byHash, entries, next, deleted := "", map[], map[], map[], 0, [];
    }

    /** updateRef, given the reference that git reports, or "" outside of any. */
    method UpdateRef(ref: string)
      requires Valid()
      modifies this`currentGitRef
      ensures Valid() && currentGitRef == ref
    {
      currentGitRef := ref;
    }

    /** The first half of registerEntryInRefMap: the entry of a hash, created if need be. */
    method FindEntry(hash: string) returns (entry: nat)
      requires Valid()
      modifies this`entries, this`byHash, this`next
      ensures Indexed(entries, byHash, next) && CountedBut(entries, maps, entry) && NoDangling(entries, maps)
      ensures hash in byHash && byHash[hash] == entry && entry in entries
      ensures byHash == old(byHash)[hash := entry]
      ensures if hash in old(byHash) then entry == old(byHash)[hash] && entries == old(entries)
              else entry !in old(entries) && entries == old(entries)[entry := Entry(hash, 0)]
    {
      hide SlotsOf;
      if hash !in byHash {
        NewEntry(entries, byHash, next, maps, hash);
        entry := next;
        entries := entries[entry := Entry(hash, 0)];
        byHash := byHash[hash := entry];
        next := next + 1;
      } else {
        entry := byHash[hash];
        assert byHash == byHash[hash := entry];
      }
    }

    /** The second half: the slot moves to the entry; the entry it pointed to loses a count, and
        goes if that was its last. */
    method MoveSlot(s: Slot, entry: nat)
      requires Indexed(entries, byHash, next) && CountedBut(entries, maps, entry) && NoDangling(entries, maps)
      requires entry in entries
      modifies this`entries, this`byHash, this`maps, this`deleted
      ensures Valid() && Settled(old(entries), entries, old(maps), s, entry) && maps == Set(old(maps), s, entry)
      ensures if deleted == old(deleted) then byHash == old(byHash) && entries.Keys == old(entries.Keys)
              else exists id :: && id in old(entries) && entries.Keys == old(entries.Keys) - {id}
                                && deleted == old(deleted) + [old(entries)[id].hash]
                                    && byHash == old(byHash) - {old(entries)[id].hash}
    {
      hide SlotsOf, Indexed, CountedBut, Counted, NoDangling, Settled;
      var refMap := if s.owner in maps then maps[s.owner] else map[];
      if s.ref in refMap {
        var prev := refMap[s.ref];
        SettledWithPrev(entries, maps, s, entry);
        KeepsIndex(entries, byHash, next, prev);
        entries := Add(entries, prev, -1);
        KeepsIndex(entries, byHash, next, prev);
        if entries[prev].numGitRefs == 0 && prev != entry {
          deleted := deleted + [entries[prev].hash];
          byHash := byHash - {entries[prev].hash};
          entries := entries - {prev};
          assert entries.Keys == old(entries.Keys) - {prev};
        }
      } else {
        SettledWithoutPrev(entries, maps, s, entry);
      }
      maps := maps[s.owner := refMap[s.ref := entry]];
      KeepsIndex(entries, byHash, next, entry);
      entries := Add(entries, entry, 1);
      SettledIsCounted(old(entries), entries, old(maps), s, entry);
    }

    /** registerNode and registerRule: the slot of the owner for the current reference points to
        the entry of `hash`.  An entry goes, and its hash is deleted from the cache, exactly when
        this took its last slot. */
    method Register(hash: string, owner: Owner)
      requires Valid() && currentGitRef != ""
      modifies this
      ensures Valid() && currentGitRef == old(currentGitRef)
      ensures hash in byHash && maps == Set(old(maps), Slot(owner, currentGitRef), byHash[hash])
      ensures forall id :: id in old(entries) ==> (id !in entries <==> SlotsOf(maps, id) == {})
      ensures forall h :: h in old(byHash) && h in byHash ==> byHash[h] == old(byHash)[h]
      ensures forall id :: id in entries && id in old(entries) ==> entries[id].hash == old(entries)[id].hash
      ensures byHash.Keys <= old(byHash.Keys) + {hash}
      ensures if deleted == old(deleted) then old(byHash.Keys) <= byHash.Keys
              else exists h ::
                  h in old(byHash) && h !in byHash && deleted == old(deleted) + [h]
                  && old(byHash.Keys) <= byHash.Keys + {h}
    {
      hide SlotsOf, Indexed, CountedBut, Counted, NoDangling, Settled;
      var entry := FindEntry(hash);
      ghost var found := entries;
      var s := Slot(owner, currentGitRef);
      ghost var known := byHash;
      forall id | id in found ensures found[id].hash in known && known[found[id].hash] == id {
        Lookup(found, known, next, id);
      }
      MoveSlot(s, entry);
      LastSlotGone(found, entries, old(maps), s, entry);
      Lookup(entries, byHash, next, entry);
      if deleted != old(deleted) {
        ghost var id :| id in found && entries.Keys == found.Keys - {id}
                        && deleted == old(deleted) + [found[id].hash] && byHash == known - {found[id].hash};
        assert id != entry;
        assert found[id].hash in old(byHash) && found[id].hash !in byHash;
      }
    }
  }

  datatype Operation = SwitchRef(ref: string) | Save(hash: string, owner: Owner)

  /** What the operations mean: the current reference, the hash in every slot, and the hashes deleted
      from the cache so far. */
  datatype Meaning = Meaning(ref: string, slots: map<Slot, string>, deleted: seq<string>)

  /** Saving sets the slot of the owner for the current reference, if there is one; the hash that was
      there is deleted if no slot holds it any more. */
  function Apply(m: Meaning, op: Operation): Meaning {
    match op
    case SwitchRef(ref) => m.(ref := ref)
    case Save(hash, owner) =>
      if m.ref == "" then m else
        var s := Slot(owner, m.ref);
        var slots := m.slots[s := hash];
        m.(slots := slots,
           deleted := if s in m.slots && m.slots[s] !in slots.Values then m.deleted + [m.slots[s]] else m.deleted)
  }

  function Replay(ops: seq<Operation>): Meaning {
    if ops == [] then Meaning("", map[], []) else Apply(Replay(ops[..|ops| - 1]), ops[|ops| - 1])
  }

  /** The last switch before operation `j` was to `ref`. */
  predicate InRef(ops: seq<Operation>, j: nat, ref: string)
    requires j <= |ops|
  {
    exists i :: 0 <= i < j && ops[i] == SwitchRef(ref) && forall k :: i < k < j ==> !ops[k].SwitchRef?
  }

  /** The owner of the slot saves while the reference of the slot is the current one. */
  predicate Fills(ops: seq<Operation>, j: nat, s: Slot)
    requires j < |ops|
  {
    ops[j].Save? && ops[j].owner == s.owner && s.ref != "" && InRef(ops, j, s.ref)
  }

  /** The current reference is the one of the last switch. */
  lemma {:induction false} RefIsLastSwitch(ops: seq<Operation>, k: nat, ref: string)
    requires k <= |ops| && ref != ""
    ensures Replay(ops[..k]).ref == ref <==> InRef(ops, k, ref)
  {
    if k > 0 {
      assert ops[..k][..k - 1] == ops[..k - 1];
      RefIsLastSwitch(ops, k - 1, ref);
      if ops[k - 1].SwitchRef? {
        assert ops[k - 1] == SwitchRef(ref) ==> InRef(ops, k, ref);
      } else if InRef(ops, k - 1, ref) {
        var i :| 0 <= i < k - 1 && ops[i] == SwitchRef(ref) && forall m :: i < m < k - 1 ==> !ops[m].SwitchRef?;
      }
    }
  }

  /** One operation fills the slot or leaves it alone. */
  lemma FillsOrKeeps(ops: seq<Operation>, k: nat, s: Slot)
    requires k < |ops|
    ensures var before, after := Replay(ops[..k]).slots, Replay(ops[..k + 1]).slots;
            && (Fills(ops, k, s) ==> s in after && after[s] == ops[k].hash)
            && (!Fills(ops, k, s) ==> (s in after <==> s in before) && (s in before ==> after[s] == before[s]))
  {
    hide InRef;
    assert ops[..k + 1][..k] == ops[..k];
    if s.ref != "" {
      RefIsLastSwitch(ops, k, s.ref);
    }
  }

  /** A slot holds what its owner saved last under its reference, and nothing if it never did. */
  lemma {:induction false} SlotIsLastSaved(ops: seq<Operation>, k: nat, s: Slot)
    requires k <= |ops|
    ensures var slots := Replay(ops[..k]).slots;
            && (s in slots <==> exists j :: 0 <= j < k && Fills(ops, j, s))
            && (forall j :: 0 <= j < k && Fills(ops, j, s) && (forall i :: j < i < k ==> !Fills(ops, i, s)) ==>
                              s in slots && slots[s] == ops[j].hash)
  {
    hide Fills, Apply;
    if k > 0 {
      SlotIsLastSaved(ops, k - 1, s);
      FillsOrKeeps(ops, k - 1, s);
    }
  }

  /** The hashes deleted from the cache are those that some operation took out of their last slot. */
  lemma {:induction false} DeletedAre(ops: seq<Operation>, k: nat, h: string)
    requires k <= |ops|
    ensures h in Replay(ops[..k]).deleted <==>
              exists j :: 0 <= j < k && h in Replay(ops[..j]).slots.Values && h !in Replay(ops[..j + 1]).slots.Values
  {
    if k > 0 {
      assert ops[..k][..k - 1] == ops[..k - 1];
      DeletedAre(ops, k - 1, h);
      var m, op := Replay(ops[..k - 1]), ops[k - 1];
      if op.Save? {
        OneValueLost(m.slots, Slot(op.owner, m.ref), op.hash);
      }
    }
  }

  /** The slots hold entries of these hashes. */
  ghost predicate Shows(entries: map<nat, Entry>, maps: RefMaps, slots: map<Slot, string>) {
    && (forall s :: s in slots <==> HasPrev(maps, s))
    && (forall s :: s in slots ==> maps[s.owner][s.ref] in entries && entries[maps[s.owner][s.ref]].hash == slots[s])
  }

  /** The hash map holds exactly the hashes that some slot holds. */
  lemma KeysAreShown(entries: map<nat, Entry>, byHash: map<string, nat>, next: nat, maps: RefMaps,
                     slots: map<Slot, string>)
    requires Indexed(entries, byHash, next) && Counted(entries, maps) && Shows(entries, maps, slots)
    ensures byHash.Keys == slots.Values
  {
    hide SlotsOf;
    forall h | h in byHash ensures h in slots.Values {
      var id := byHash[h];
      EmptyIff(SlotsOf(maps, id));
      var s :| s in SlotsOf(maps, id);
      PointsIffSlot(maps, s, id);
      assert s in slots && slots[s] == h;
    }
    forall h | h in slots.Values ensures h in byHash {
      var s :| s in slots && slots[s] == h;
    }
  }

  lemma ShowsSet(before: map<nat, Entry>, after: map<nat, Entry>, maps: RefMaps, slots: map<Slot, string>, s: Slot,
                 id: nat, hash: string)
    requires Shows(before, maps, slots) && NoDangling(after, Set(maps, s, id)) && id in after && after[id].hash == hash
    requires forall k :: k in after && k in before ==> after[k].hash == before[k].hash
    ensures Shows(after, Set(maps, s, id), slots[s := hash])
  {
    var m := Set(maps, s, id);
    forall x ensures x in slots[s := hash] <==> HasPrev(m, x) {
    }
    forall x | x in slots[s := hash] ensures m[x.owner][x.ref] in after
        && after[m[x.owner][x.ref]].hash == slots[s := hash][x] {
      assert HasPrev(m, x);
      if x != s {
        assert m[x.owner][x.ref] == maps[x.owner][x.ref];
      }
    }
  }

  /** Any sequence of registrations and switches between references leaves the directory as the
      operations mean, with every count exact, the hash map holding exactly the hashes in the slots,
      and exactly the hashes deleted that lost their last slot, in order.  Nothing is registered while
      git is in no reference, as the callers make sure. */
  method Run(ops: seq<Operation>) returns (directory: CacheGitDirectory)
    ensures fresh(directory) && directory.Valid()
    ensures var m := Replay(ops);
            && directory.currentGitRef == m.ref && Shows(directory.entries, directory.maps, m.slots)
            && directory.byHash.Keys == m.slots.Values && directory.deleted == m.deleted
  {
    hide SlotsOf, Indexed, Counted, NoDangling, Shows, Set;
    directory := new CacheGitDirectory();
    NothingShown();
    for i := 0 to |ops|
      invariant fresh(directory) && directory.Valid()
      invariant directory.currentGitRef == Replay(ops[..i]).ref && directory.deleted == Replay(ops[..i]).deleted
      invariant Shows(directory.entries, directory.maps, Replay(ops[..i]).slots)
    {
      assert ops[..i + 1][..i] == ops[..i];
      Perform(directory, ops[i], Replay(ops[..i]));
    }
    assert ops[..|ops|] == ops;
    KeysAreShown(directory.entries, directory.byHash, directory.next, directory.maps, Replay(ops).slots);
  }

  lemma NothingShown()
    ensures Shows(map[], map[], map[])
  {
  }

  method Perform(directory: CacheGitDirectory, op: Operation, ghost m: Meaning)
    requires directory.Valid() && directory.currentGitRef == m.ref && directory.deleted == m.deleted
    requires Shows(directory.entries, directory.maps, m.slots)
    modifies directory
    ensures directory.Valid()
    ensures var n := Apply(m, op);
            directory.currentGitRef == n.ref && directory.deleted == n.deleted
                && Shows(directory.entries, directory.maps, n.slots)
  {
    hide SlotsOf, Indexed, Counted, NoDangling, Shows, Set;
    match op
    case SwitchRef(ref) => directory.UpdateRef(ref);
    case Save(hash, owner) =>
      if directory.currentGitRef != "" {
        ghost var d := directory;
        KeysAreShown(d.entries, d.byHash, d.next, d.maps, m.slots);
        directory.Register(hash, owner);
        HashOf(d.entries, d.byHash, d.next, hash);
        var s := Slot(owner, directory.currentGitRef);
        ShowsSet(old(directory.entries), directory.entries, old(directory.maps), m.slots, s, directory.byHash[hash],
            hash);
        KeysAreShown(d.entries, d.byHash, d.next, d.maps, m.slots[s := hash]);
        OneValueLost(m.slots, s, hash);
      }
  }

  lemma HashOf(entries: map<nat, Entry>, byHash: map<string, nat>, next: nat, hash: string)
    requires Indexed(entries, byHash, next) && hash in byHash
    ensures byHash[hash] in entries && entries[byHash[hash]].hash == hash
  {
  }

  /** Setting a slot can only lose the hash that was in it. */
  lemma OneValueLost(slots: map<Slot, string>, s: Slot, hash: string)
    ensures forall h :: h in slots.Values && h !in slots[s := hash].Values ==> s in slots && h == slots[s]
  {
    forall x | x in slots && x != s ensures slots[x] in slots[s := hash].Values {
      assert slots[s := hash][x] == slots[x];
    }
  }
}
