/** How a backup stores the chunks of its files (backup.rs): deduplicate against the index, pack what is
  new, upload full packs. */
module WritePath {
  import opened Wrappers
  import opened ChunkTable
  import opened ChunkIndexing
  import opened PackFormat
  import opened Packing
  import Chunking

  /** The slice at `loc` decodes under `id`. */
  ghost predicate InStore(c: Crypto, maxChunk: nat, store: map<Id, Bytes>, id: Id, loc: Location) {
    && loc.pack in store
    && Readable(c, store[loc.pack], PackEntry(id, loc.offset, loc.length, loc.rawLen), maxChunk)
  }

  /** Packs are named by their bytes. */
  ghost predicate Addressed(c: Crypto, store: map<Id, Bytes>) {
    forall p | p in store :: c.packName(store[p]) == p
  }

  /** The pack is stored as the index blob will list it. */
  ghost predicate Uploaded(c: Crypto, maxChunk: nat, store: map<Id, Bytes>, p: IndexPack) {
    && p.pack in store && p.size == |store[p.pack]|
    && Sound(c, FinishedPack(p.pack, store[p.pack], p.entries), maxChunk)
  }

  /** Storing a pack under its name disturbs nothing. */
  lemma Uploads(c: Crypto, maxChunk: nat, store: map<Id, Bytes>, p: FinishedPack)
    requires c.Valid() && Addressed(c, store) && Sound(c, p, maxChunk)
    ensures var store' := store[p.id := p.bytes];
            && Addressed(c, store') && p.id != PENDING
            && (forall q | q in store :: store'[q] == store[q])
            && (forall id, loc | InStore(c, maxChunk, store, id, loc) :: InStore(c, maxChunk, store', id, loc))
            && (forall q | Uploaded(c, maxChunk, store, q) :: Uploaded(c, maxChunk, store', q))
            && Uploaded(c, maxChunk, store', IndexPack(p.id, |p.bytes|, p.entries))
            && (forall e | e in p.entries :: InStore(c, maxChunk, store', e.id, Place(p.id, e)))
  {
    hide Readable, DecodeChunk;
    assert p.id in store ==> store[p.id] == p.bytes;
    assert FinishedPack(p.id, p.bytes, p.entries) == p;
    forall e | e in p.entries ensures InStore(c, maxChunk, store[p.id := p.bytes], e.id, Place(p.id, e)) {
      assert PackEntry(e.id, e.offset, e.length, e.rawLen) == e;
    }
  }

  ghost predicate InPacks(ps: seq<IndexPack>, id: Id) {
    exists p, e :: p in ps && e in p.entries && e.id == id
  }

  lemma InPacksSnoc(ps: seq<IndexPack>, p: IndexPack, id: Id)
    requires InPacks(ps, id) || exists e :: e in p.entries && e.id == id
    ensures InPacks(ps + [p], id)
  {
    if q, e :| q in ps && e in q.entries && e.id == id {
      assert q in ps + [p];
    } else {
      assert p in ps + [p];
    }
  }

  lemma HeldMoves(ps: seq<IndexPack>, p: IndexPack)
    ensures forall id | InPacks(ps, id) || exists e :: e in p.entries && e.id == id :: InPacks(ps + [p], id)
  {
    forall id | InPacks(ps, id) || exists e :: e in p.entries && e.id == id ensures InPacks(ps + [p], id) {
      InPacksSnoc(ps, p, id);
    }
  }

  ghost predicate Refers(referenced: map<Id, seq<Id>>, p: Id, id: Id) {
    p in referenced && id in referenced[p]
  }

  /** What `read` needs to know of a file. */
  datatype FileResult = FileResult(chunks: seq<Id>, bytesTotal: nat)

  ghost function Ids(c: Crypto, chunks: seq<Bytes>): (ids: seq<Id>)
    ensures |ids| == |chunks| && forall k | 0 <= k < |ids| :: ids[k] == c.chunkId(chunks[k])
  {
    seq(|chunks|, k requires 0 <= k < |chunks| => c.chunkId(chunks[k]))
  }

  class Backup {
    const crypto: Crypto
    const maxChunk: nat
    const marked: set<Id>
    const index: ChunkIndex
    const packer: PackWriter
    /** The packs of the repository; uploads add to it. */
    var store: map<Id, Bytes>
    var newPacks: seq<IndexPack>
    /** The chunks reused from packs that were there before. */
    var referenced: map<Id, seq<Id>>

    ghost predicate Valid()
      reads this, index, packer
    {
      && packer.Valid() && index.Valid() && packer.crypto == crypto && packer.maxChunk == maxChunk
      && PENDING !in marked && PENDING !in store && Addressed(crypto, store)
      && (forall e | e in packer.entries :: index.Answer(e.id) == Some(Place(PENDING, e)))
      && (forall id | Pending(id) :: packer.Holds(id))
      && (forall id | Settled(id) :: InStore(crypto, maxChunk, store, id, index.Answer(id).value))
      && (forall id | id in MapOf(index.base) :: MapOf(index.base)[id].pack != PENDING)
      && (forall p | p in newPacks :: Uploaded(crypto, maxChunk, store, p))
      && WrittenOnce()
    }

    ghost predicate Pending(id: Id)
      reads index
    {
      index.Answer(id).Some? && index.Answer(id).value.pack == PENDING
    }

    /** The index places the chunk in a finished pack that is not marked for deletion. */
    ghost predicate Settled(id: Id)
      reads index
    {
      index.Answer(id).Some? && index.Answer(id).value.pack != PENDING && index.Answer(id).value.pack !in marked
    }

    /** The chunk is in the open pack, or where the index says in a stored one. */
    ghost predicate Known(id: Id)
      reads this, index
    {
      Pending(id) || (index.Answer(id).Some? && InStore(crypto, maxChunk, store, id, index.Answer(id).value))
    }

    /** The gate will find the chunk: in a pack of this backup, or among the reused ones. */
    ghost predicate Accounted(id: Id)
      reads this, packer
    {
      || packer.Holds(id)
      || InPacks(newPacks, id)
      || (exists p: Id :: p !in marked && Refers(referenced, p, id))
    }

    /** The backup writes no chunk twice: one it has in a finished pack stays settled there, unless the name of that
        pack is marked. */
    ghost predicate WrittenOnce()
      reads this, index
    {
      && (forall p, e | p in newPacks && e in p.entries :: p.pack in marked || Settled(e.id))
      && (forall i, j, e, f | 0 <= i < j < |newPacks| && e in newPacks[i].entries && f in newPacks[j].entries
                              && e.id == f.id :: newPacks[i].pack in marked)
    }

    ghost function SettledIds(): iset<Id>
      reads index
    {
      iset id | Settled(id)
    }

    /** Since the index had `settled` in finished packs, and the backup had written `packs`: nothing of `settled` was
        written again, neither to a finished pack nor to the open one. */
    ghost predicate Spares(settled: iset<Id>, packs: seq<IndexPack>)
      reads this, index, packer
    {
      && settled <= SettledIds() && packs <= newPacks
      && (forall p, e | p in newPacks[|packs|..] && e in p.entries :: e.id !in settled)
      && (forall e | e in packer.entries :: e.id !in settled)
    }

    /** The open pack is to take another chunk. */
    ghost predicate HasRoom()
      reads packer
    {
      packer.entries == [] || !packer.IsFull()
    }

    /** The last chunk was added to a pack that had not reached the target size. */
    ghost predicate LastFits(entries: seq<PackEntry>) {
      |entries| <= 1 || entries[|entries| - 1].offset < packer.targetSize
    }

    /** A pack closed because it was full, and as soon as it was. */
    ghost predicate Filled(p: IndexPack) {
      packer.targetSize <= p.size && LastFits(p.entries)
    }

    constructor (crypto: Crypto, maxChunk: nat, targetSize: nat, marked: set<Id>, index: ChunkIndex, store: map<Id, Bytes>)
      requires crypto.Valid() && maxChunk <= MAX_CHUNKER_MAX && index.Valid()
      requires PENDING !in marked && PENDING !in store && Addressed(crypto, store)
      requires forall id | index.Answer(id).Some? :: index.Answer(id).value.pack != PENDING
      requires forall id | index.Answer(id).Some? && index.Answer(id).value.pack !in marked ::
                 InStore(crypto, maxChunk, store, id, index.Answer(id).value)
      requires forall id | id in MapOf(index.base) :: MapOf(index.base)[id].pack != PENDING
      ensures Valid() && this.crypto == crypto && this.maxChunk == maxChunk && this.marked == marked
      ensures this.index == index && this.store == store && fresh(packer) && packer.entries == [] && newPacks == []
      ensures packer.targetSize == targetSize && WrittenOnce()
    {
      this.crypto, this.maxChunk, this.marked, this.index, this.store := crypto, maxChunk, marked, index, store;
      newPacks, referenced := [], map[];
      packer := new PackWriter(crypto, targetSize, maxChunk);
    }

    /** One chunk: reuse it, or write it into the open pack. A chunk whose place is marked for deletion is
        written again. */
    method AddChunk(plain: Bytes, nonce: nat) returns (id: Id, reused: Option<Id>)
      requires Valid() && |plain| <= maxChunk
      modifies index`overlay, packer`buf, packer`entries
      ensures Valid() && id == crypto.chunkId(plain) && Known(id)
      ensures forall x :: old(Known(x)) ==> Known(x)
      ensures forall x :: old(Accounted(x)) ==> Accounted(x)
      ensures reused.None? || reused.value == PENDING ==> Accounted(id)
      ensures reused.Some? ==> reused.value !in marked
      // a chunk that is stored already, or in the open pack, is not written again; any other is, once
      ensures old(Pending(id)) || old(Settled(id)) ==>
                && reused == Some(old(index.Answer(id)).value.pack)
                && packer.entries == old(packer.entries) && packer.buf == old(packer.buf)
                && index.overlay == old(index.overlay)
      ensures !old(Pending(id)) && !old(Settled(id)) ==>
                && reused.None? && Pending(id)
                && exists e :: packer.entries == old(packer.entries) + [e] && e.id == id && e.offset == |old(packer.buf)|
      ensures Spares(old(SettledIds()), newPacks)
    {
      hide Valid, PackWriter.Valid, BeforeSealing, InStore, MapOf, StrictlySorted, Spares, Settled, InPacks;
      ghost var at := Places(this);
      OpenPack(this);
      id := crypto.chunkId(plain);
      var loc := index.Get(id);
      if loc.Some? && loc.value.pack !in marked {
        FoundIsKnown(this, id);
        PackIsOpen(this, at);
        return id, Some(loc.value.pack);
      }
      assert !packer.Holds(id);
      assert !Settled(id) by { StillUnsettled(this, id, loc); }
      var e := packer.Add(plain, nonce);
      if loc.Some? {
        index.ReplacePending(e);
      } else {
        index.AddPending(e);
      }
      assert forall x | x != id :: index.Answer(x) == old(index.Answer(x));
      assert index.Answer(id) == Some(Place(PENDING, e));
      forall x | old(packer.Holds(x)) || x == id ensures packer.Holds(x) {
        assert e in packer.entries;
        if x != id {
          var y :| y in old(packer.entries) && y.id == x;
          assert y in packer.entries;
        }
      }
      forall x | Settled(x) ensures x in at {
        if x !in at {
          StillUnsettled(this, x, index.Answer(x));
        }
      }
      PackIsOpen(this, at);
      reused := None;
    }

    /** The index places the chunk in the finished pack `p`. */
    ghost predicate PlacedIn(p: FinishedPack, id: Id)
      reads index
    {
      exists e :: e in p.entries && e.id == id && index.Answer(id) == Some(Place(p.id, e))
    }

    /** As `Valid`, but the finished pack `p` has not been uploaded yet. */
    ghost predicate ValidBefore(p: FinishedPack)
      reads this, index, packer
    {
      && packer.Valid() && index.Valid() && packer.crypto == crypto && packer.maxChunk == maxChunk
      && PENDING !in marked && PENDING !in store && Addressed(crypto, store)
      && packer.entries == [] && (forall id :: !Pending(id)) && Sound(crypto, p, maxChunk)
      && (forall id | Settled(id) :: InStore(crypto, maxChunk, store, id, index.Answer(id).value) || PlacedIn(p, id))
      && (forall id | id in MapOf(index.base) :: MapOf(index.base)[id].pack != PENDING)
      && (forall q | q in newPacks :: Uploaded(crypto, maxChunk, store, q))
      && WrittenOnce() && Joins(p)
    }

    /** The pack may join those the backup has written. */
    ghost predicate Joins(p: FinishedPack)
      reads this, index
    {
      && (forall e | e in p.entries :: p.id in marked || Settled(e.id))
      && (forall q, e, f | q in newPacks && e in q.entries && f in p.entries && e.id == f.id :: q.pack in marked)
    }

    /** The chunks of the open pack have their place in the finished pack `p`. */
    method NamePending(p: FinishedPack)
      requires index.Valid() && DistinctIds(p.entries) && p.id != PENDING
      requires forall e | e in p.entries :: index.Answer(e.id) == Some(Place(PENDING, e))
      requires forall id | Pending(id) :: exists e :: e in p.entries && e.id == id
      requires forall id | id in MapOf(index.base) :: MapOf(index.base)[id].pack != PENDING
      modifies index
      ensures index.Valid()
      ensures forall e | e in p.entries :: index.Answer(e.id) == Some(Place(p.id, e))
      ensures forall id ::
                if old(Pending(id)) then PlacedIn(p, id) else index.Answer(id) == old(index.Answer(id))
    {
      hide DistinctIds, MapOf, StrictlySorted;
      index.ResolvePending(p.id, |p.bytes|, p.entries);
      forall e | e in p.entries ensures index.Answer(e.id) == Some(Place(p.id, e)) {
        assert old(index.Answer(e.id)) == Some(Place(PENDING, e));
        var i :| 0 <= i < |p.entries| && p.entries[i] == e;
        ResolvedAt(Place(PENDING, e), p.id, p.entries, i);
      }
      forall id | old(Pending(id)) ensures PlacedIn(p, id) {
        var e :| e in p.entries && e.id == id;
        assert index.Answer(e.id) == Some(Place(p.id, e));
      }
    }

    /** Closes the open pack and gives its chunks their place. */
    method SealPack(nonce: nat) returns (p: Option<FinishedPack>)
      requires Valid()
      modifies index, packer`buf, packer`entries
      ensures p.None? ==> Valid() && packer.entries == [] && forall id :: !Pending(id)
      ensures p.None? ==> forall id :: (old(Known(id)) ==> Known(id)) && (old(Accounted(id)) ==> Accounted(id))
      ensures p.Some? ==> ValidBefore(p.value) && p.value.entries == old(packer.entries)
      ensures p.Some? ==> forall id ::
                if old(Pending(id)) then PlacedIn(p.value, id) else index.Answer(id) == old(index.Answer(id))
      ensures p.Some? ==> forall e | e in p.value.entries :: e.id !in old(SettledIds())
      ensures p.None? ==> old(packer.entries) == []
      ensures p.Some? ==> |old(packer.buf)| <= |p.value.bytes| && old(packer.entries) != []
      ensures Spares(old(SettledIds()), newPacks)
    {
      hide Valid, ValidBefore, Sound, DecodeChunk, InPacks, MapOf, StrictlySorted, Settled, InStore, WrittenOnce, Spares;
      hide PackWriter.Valid, BeforeSealing, SettledIds, Readable;
      ghost var was, at := packer.entries, Places(this);
      OpenPack(this);
      p := packer.Finish(nonce);
      if p.None? {
        PackIsOpen(this, at);
        return;
      }
      assert p.value.id != PENDING by { NamedByBytes(crypto, p.value, maxChunk); }
      NamePending(p.value);
      forall id ensures !Pending(id) && (Settled(id) ==> id in at || PlacedIn(p.value, id)) {
        if !old(Pending(id)) && id !in at {
          StillUnsettled(this, id, old(index.Answer(id)));
        }
      }
      SealedIsValid(this, p.value, at);
    }

    /** `handle_finished`: uploads a closed pack and notes it for the index blob. */
    method HandleFinished(p: FinishedPack)
      requires crypto.Valid() && ValidBefore(p)
      modifies `store, `newPacks
      ensures Valid() && newPacks == old(newPacks) + [IndexPack(p.id, |p.bytes|, p.entries)]
      ensures forall q | q in old(store) :: q in store && store[q] == old(store)[q]
      ensures forall id :: old(Known(id)) || old(PlacedIn(p, id)) ==> Known(id)
      ensures packer.entries == old(packer.entries)
    {
      hide Readable, Sound, DecodeChunk, Addressed, Uploaded, InStore, MapOf, StrictlySorted;
      Uploads(crypto, maxChunk, store, p);
      store := store[p.id := p.bytes];
      newPacks := newPacks + [IndexPack(p.id, |p.bytes|, p.entries)];
      forall id | Settled(id) ensures InStore(crypto, maxChunk, store, id, index.Answer(id).value) {
        if PlacedIn(p, id) {
          var e :| e in p.entries && e.id == id && index.Answer(id) == Some(Place(p.id, e));
        }
      }
    }

    /** `flush_pack` */
    method FlushPack(nonce: nat)
      requires Valid()
      modifies index, packer`buf, packer`entries, `store, `newPacks
      ensures Valid() && packer.entries == [] && forall id :: !Pending(id)
      ensures forall id :: old(Known(id)) ==> Known(id)
      ensures forall id :: old(Accounted(id)) ==> Accounted(id)
      ensures forall p | p in old(store) :: p in store && store[p] == old(store)[p]
      ensures Spares(old(SettledIds()), old(newPacks)) && old(newPacks) <= newPacks
      ensures if old(packer.entries) == [] then newPacks == old(newPacks)
              else && |newPacks| == |old(newPacks)| + 1
                   && newPacks[|old(newPacks)|].entries == old(packer.entries)
                   && newPacks[|old(newPacks)|].size >= |old(packer.buf)|
    {
      hide Addressed, Uploaded, InStore, InPacks, MapOf, StrictlySorted, Sound, Valid, Settled;
      var p := SealPack(nonce);
      if p.Some? {
        assert crypto.Valid() && packer.entries == [] && forall id :: !Pending(id) by { WhatIsSealed(this, p.value); }
        HandleFinished(p.value);
        assert newPacks[|old(newPacks)|..] == [IndexPack(p.value.id, |p.value.bytes|, p.value.entries)];
        HeldMoves(old(newPacks), IndexPack(p.value.id, |p.value.bytes|, p.value.entries));
      }
    }

    /** Remembers which pack each reused chunk is in; chunks of the open pack are listed at the end anyway. */
    method RecordReferenced(reused: seq<(Id, Id)>)
      requires Valid()
      modifies `referenced
      ensures Valid()
      ensures forall p: Id, id: Id :: Refers(referenced, p, id) <==>
                old(Refers(referenced, p, id)) || (p != PENDING && (id, p) in reused)
      ensures forall id | ReusedFrom(id, reused) :: Accounted(id)
      ensures forall id :: old(Known(id)) ==> Known(id)
      ensures forall id :: old(Accounted(id)) ==> Accounted(id)
      ensures Spares(old(SettledIds()), newPacks)
    {
      hide Settled, InStore, Uploaded, Addressed, MapOf, PackWriter.Valid, WrittenOnce, StrictlySorted;
      ghost var at := Places(this);
      OpenPack(this);
      for i := 0 to |reused|
        invariant forall p: Id, id: Id :: Refers(referenced, p, id) <==>
                    old(Refers(referenced, p, id)) || (p != PENDING && (id, p) in reused[..i])
      {
        assert reused[..i + 1] == reused[..i] + [reused[i]];
        var (id, p) := reused[i];
        if p != PENDING {
          referenced := referenced[p := (if p in referenced then referenced[p] else []) + [id]];
        }
      }
      assert reused[..|reused|] == reused;
      PackIsOpen(this, at);
    }

    ghost predicate ReusedFrom(id: Id, reused: seq<(Id, Id)>) {
      exists p :: (id, p) in reused && p != PENDING && p !in marked
    }

    /** Chunks until the open pack is full. */
    method Round(chunks: seq<Bytes>, from: nat, nonces: nat -> nat)
      returns (next: nat, ids: seq<Id>, reused: seq<(Id, Id)>, full: bool)
      requires Valid() && from <= |chunks| && forall k | from <= k < |chunks| :: |chunks[k]| <= maxChunk
      modifies index, packer`buf, packer`entries
      ensures Valid() && from <= next <= |chunks| && (!full ==> next == |chunks|) && (full ==> from < next)
      ensures ids == Ids(crypto, chunks[from..next])
      ensures forall id | id in ids :: Known(id) && (Accounted(id) || ReusedFrom(id, reused))
      ensures forall id :: old(Known(id)) ==> Known(id)
      ensures forall id :: old(Accounted(id)) ==> Accounted(id)
      ensures Spares(old(SettledIds()), newPacks)
      ensures old(HasRoom()) ==>
                if full then packer.IsFull() && packer.entries != [] && LastFits(packer.entries) else HasRoom()
    {
      hide Valid, Known, Accounted, Spares, Settled, SettledIds;
      ghost var settled := SettledIds();
      next, ids, reused, full := from, [], [], false;
      SparesNow(this);
      while next < |chunks|
        invariant Valid() && from <= next <= |chunks| && !full
        invariant ids == Ids(crypto, chunks[from..next])
        invariant forall id | id in ids :: Known(id) && (Accounted(id) || ReusedFrom(id, reused))
        invariant forall id :: old(Known(id)) ==> Known(id)
        invariant forall id :: old(Accounted(id)) ==> Accounted(id)
        invariant Spares(settled, newPacks)
        invariant old(HasRoom()) ==> HasRoom()
      {
        ghost var before, mid := reused, SettledIds();
        SparesSoFar(this, settled, newPacks);
        var id, pack := AddChunk(chunks[next], nonces(next));
        SparesOn(this, settled, newPacks, mid, newPacks);
        assert chunks[from..next + 1] == chunks[from..next] + [chunks[next]];
        ids := ids + [id];
        next := next + 1;
        if pack.Some? {
          reused := reused + [(id, pack.value)];
          MoreReused(this, before, (id, pack.value));
          continue;
        }
        if packer.IsFull() {
          full := true;
          return;
        }
      }
    }

    /** Deduplicates and packs the chunks of one input; `fails`: after these chunks the input cannot be read. */
    method ChunkReader(chunks: seq<Bytes>, fails: bool, nonces: nat -> nat) returns (r: Option<FileResult>)
      requires Valid() && forall k | 0 <= k < |chunks| :: |chunks[k]| <= maxChunk
      modifies index, packer`buf, packer`entries, `store, `newPacks, `referenced
      ensures Valid() && (r.None? <==> fails)
      ensures r.Some? ==> r.value.chunks == Ids(crypto, chunks) && r.value.bytesTotal == |Chunking.Concat(chunks)|
      ensures r.Some? ==> forall id | id in r.value.chunks :: Known(id) && Accounted(id)
      ensures forall id :: old(Known(id)) ==> Known(id)
      ensures forall id :: old(Accounted(id)) ==> Accounted(id)
      ensures Spares(old(SettledIds()), old(newPacks))
      ensures old(HasRoom()) ==> HasRoom() && forall k | |old(newPacks)| <= k < |newPacks| :: Filled(newPacks[k])
    {
      hide Known, Valid, Spares, Settled, SettledIds, Accounted, Filled, HasRoom;
      var next: nat, ids: seq<Id>, total := 0, [], 0;
      assert chunks[..0] == [] && Chunking.Concat(chunks[..0]) == [];
      hide Chunking.Concat;
      ghost var settled := SettledIds();
      SparesNow(this);
      while next < |chunks|
        invariant Valid() && next <= |chunks| && ids == Ids(crypto, chunks[..next])
        invariant forall id | id in ids :: Known(id) && Accounted(id)
        invariant forall id :: old(Known(id)) ==> Known(id)
        invariant forall id :: old(Accounted(id)) ==> Accounted(id)
        invariant total == |Chunking.Concat(chunks[..next])|
        invariant Spares(settled, old(newPacks)) && |old(newPacks)| <= |newPacks|
        invariant old(HasRoom()) ==> HasRoom() && forall k | |old(newPacks)| <= k < |newPacks| :: Filled(newPacks[k])
        decreases |chunks| - next
      {
        var from := next;
        var more, full := NextRound(chunks, from, nonces, settled, old(newPacks));
        next := from + |more|;
        total := total + LengthOf(chunks[from..next]);
        ConcatSplit(chunks, from, next);
        assert chunks[..next] == chunks[..from] + chunks[from..next];
        ids := ids + more;
      }
      assert chunks[..next] == chunks;
      r := if fails then None else Some(FileResult(ids, total));
    }

    /** One round, with its reused chunks recorded, and the pack uploaded if it is full. */
    method NextRound(chunks: seq<Bytes>, from: nat, nonces: nat -> nat, ghost settled: iset<Id>, ghost packs: seq<IndexPack>)
      returns (ids: seq<Id>, full: bool)
      requires Valid() && from < |chunks| && forall k | from <= k < |chunks| :: |chunks[k]| <= maxChunk
      requires Spares(settled, packs) && |packs| <= |newPacks|
      modifies index, packer`buf, packer`entries, `store, `newPacks, `referenced
      ensures Valid() && 0 < |ids| <= |chunks| - from && ids == Ids(crypto, chunks[from..from + |ids|])
      ensures forall id | id in ids :: Known(id) && Accounted(id)
      ensures forall id :: old(Known(id)) ==> Known(id)
      ensures forall id :: old(Accounted(id)) ==> Accounted(id)
      ensures Spares(settled, packs) && |packs| <= |newPacks|
      ensures old(HasRoom()) && (forall k | |packs| <= k < |old(newPacks)| :: Filled(old(newPacks)[k])) ==>
                HasRoom() && forall k | |packs| <= k < |newPacks| :: Filled(newPacks[k])
    {
      hide Known, Valid, Spares, Settled, SettledIds, Accounted;
      ghost var mid, midPacks := SettledIds(), newPacks;
      SparesSoFar(this, settled, packs);
      var next, reused;
      next, ids, reused, full := Round(chunks, from, nonces);
      SparesOn(this, settled, packs, mid, midPacks);
      mid := SettledIds();
      SparesSoFar(this, settled, packs);
      RecordReferenced(reused);
      SparesOn(this, settled, packs, mid, midPacks);
      if full {
        mid := SettledIds();
        SparesSoFar(this, settled, packs);
        FlushPack(nonces(next));
        SparesOn(this, settled, packs, mid, midPacks);
      }
    }

    /** One file, from its bytes: chunked, deduplicated, packed. */
    method StoreFile(cutter: Chunking.Cutter, reader: Chunking.Reader, nonces: nat -> nat) returns (r: Option<FileResult>)
      requires Valid() && cutter.Valid() && cutter.sizes.max == maxChunk
      modifies reader, index, packer`buf, packer`entries, `store, `newPacks, `referenced
      ensures Valid() && (r.None? ==> Chunking.Fail in old(reader.schedule))
      ensures Chunking.Fails(reader.schedule) == Chunking.Fails(old(reader.schedule)) - if r.None? then 1 else 0
      ensures r.Some? ==> r.value.chunks == Ids(crypto, Chunking.Chunks(cutter, old(reader.rest)))
      ensures r.Some? ==> r.value.bytesTotal == |old(reader.rest)|
      ensures r.Some? ==> forall id | id in r.value.chunks :: Known(id) && Accounted(id)
      ensures forall id :: old(Known(id)) ==> Known(id)
      ensures forall id :: old(Accounted(id)) ==> Accounted(id)
      ensures Spares(old(SettledIds()), old(newPacks))
      ensures old(HasRoom()) ==> HasRoom() && forall k | |old(newPacks)| <= k < |newPacks| :: Filled(newPacks[k])
    {
      hide Chunking.Chunks, Chunking.Fails, Known, Accounted, Spares, Settled, SettledIds;
      ghost var input := reader.rest;
      var chunks, failed := Chunking.ChunkAll(cutter, reader);
      forall k | 0 <= k < |chunks| ensures |chunks[k]| <= maxChunk {
        Chunking.ChunkSizes(cutter, input, k);
      }
      Chunking.ChunksConcatenate(cutter, input);
      r := ChunkReader(chunks, failed, nonces);
    }

    /** Reading a chunk: the index places it, its pack is stored, its slice decodes. */
    ghost function ReadChunk(id: Id): Option<Bytes>
      reads this, index
    {
      match index.Answer(id)
      case None => None
      case Some(loc) =>
        if loc.pack in store && loc.offset + loc.length <= |store[loc.pack]| then
          match DecodeChunk(crypto, id, store[loc.pack][loc.offset..loc.offset + loc.length], loc.rawLen, maxChunk)
          case Ok(plain) => Some(plain)
          case Err(_) => None
        else None
    }

    ghost function ReadAll(ids: seq<Id>): Option<Bytes>
      reads this, index
    {
      if ids == [] then Some([])
      else if ReadChunk(ids[0]).Some? && ReadAll(ids[1..]).Some? then
        Some(ReadChunk(ids[0]).value + ReadAll(ids[1..]).value)
      else None
    }
  }

  /** Where the index has the settled chunks. */
  ghost function Places(b: Backup): imap<Id, Location>
    reads b.index
  {
    imap id | b.Settled(id) :: b.index.Answer(id).value
  }

  /** What closing the open pack does not touch; `at` says where the settled chunks are. */
  ghost predicate BeforeSealing(b: Backup, at: imap<Id, Location>)
    reads b
  {
    && b.packer.crypto == b.crypto && b.packer.maxChunk == b.maxChunk
    && PENDING !in b.marked && PENDING !in b.store && Addressed(b.crypto, b.store)
    && (forall id | id in at :: at[id].pack != PENDING && at[id].pack !in b.marked)
    && (forall id | id in at :: InStore(b.crypto, b.maxChunk, b.store, id, at[id]))
    && (forall id | id in MapOf(b.index.base) :: MapOf(b.index.base)[id].pack != PENDING)
    && (forall p | p in b.newPacks :: Uploaded(b.crypto, b.maxChunk, b.store, p))
    && (forall p, e | p in b.newPacks && e in p.entries :: p.pack in b.marked || e.id in at)
    && (forall i, j, e, f | 0 <= i < j < |b.newPacks| && e in b.newPacks[i].entries && f in b.newPacks[j].entries
                            && e.id == f.id :: b.newPacks[i].pack in b.marked)
  }

  /** What there is to know before the open pack is closed. */
  lemma OpenPack(b: Backup)
    requires b.Valid()
    ensures b.packer.Valid() && b.index.Valid() && b.crypto.Valid() && DistinctIds(b.packer.entries)
    ensures b.packer.crypto == b.crypto && b.packer.maxChunk == b.maxChunk && PENDING !in b.marked
    ensures forall id | id in MapOf(b.index.base) :: MapOf(b.index.base)[id].pack != PENDING
    ensures forall e | e in b.packer.entries :: b.index.Answer(e.id) == Some(Place(PENDING, e)) && e.id !in Places(b)
    ensures forall id | b.Pending(id) :: b.packer.Holds(id)
    ensures forall id | id in Places(b) :: !b.Pending(id) && b.index.Answer(id) == Some(Places(b)[id])
    ensures forall id | id !in Places(b) ::
              b.index.Answer(id).None? || b.index.Answer(id).value.pack == PENDING || b.index.Answer(id).value.pack in b.marked
    ensures BeforeSealing(b, Places(b)) && Places(b).Keys == b.SettledIds()
  {
    hide PackWriter.Valid, InStore, Addressed, Uploaded, MapOf;
    CryptoIsValid(b.packer);
  }

  lemma CryptoIsValid(w: PackWriter)
    requires w.Valid()
    ensures w.crypto.Valid() && DistinctIds(w.entries)
  {
  }

  lemma SparesNow(b: Backup)
    requires b.Valid()
    ensures b.Spares(b.SettledIds(), b.newPacks)
  {
    hide InStore, Addressed, Uploaded, MapOf, PackWriter.Valid, Backup.WrittenOnce;
  }

  /** Between two moments of a backup nothing settled at the first was written to a finished pack. */
  ghost predicate Between(settled: iset<Id>, packs: seq<IndexPack>, mid: iset<Id>, midPacks: seq<IndexPack>) {
    && settled <= mid && packs <= midPacks
    && forall p, e | p in midPacks[|packs|..] && e in p.entries :: e.id !in settled
  }

  lemma SparesSoFar(b: Backup, settled: iset<Id>, packs: seq<IndexPack>)
    requires b.Spares(settled, packs)
    ensures Between(settled, packs, b.SettledIds(), b.newPacks) && packs <= b.newPacks
  {
  }

  lemma SparesOn(b: Backup, settled: iset<Id>, packs: seq<IndexPack>, mid: iset<Id>, midPacks: seq<IndexPack>)
    requires Between(settled, packs, mid, midPacks) && b.Spares(mid, midPacks)
    ensures b.Spares(settled, packs) && packs <= midPacks <= b.newPacks
  {
    forall p, e | p in b.newPacks[|packs|..] && e in p.entries ensures e.id !in settled {
      var k :| |packs| <= k < |b.newPacks| && b.newPacks[k] == p;
      if k < |midPacks| {
        assert b.newPacks[k] == midPacks[k] && midPacks[k] in midPacks[|packs|..];
      } else {
        assert b.newPacks[k] in b.newPacks[|midPacks|..];
      }
    }
  }

  lemma MoreReused(b: Backup, reused: seq<(Id, Id)>, one: (Id, Id))
    ensures forall id: Id | b.ReusedFrom(id, reused) :: b.ReusedFrom(id, reused + [one])
    ensures one.1 != PENDING && one.1 !in b.marked ==> b.ReusedFrom(one.0, reused + [one])
  {
    var all := reused + [one];
    forall id: Id | b.ReusedFrom(id, reused) ensures b.ReusedFrom(id, all) {
      var p :| (id, p) in reused && p != PENDING && p !in b.marked;
      assert (id, p) in all;
    }
    assert one in all && one == (one.0, one.1);
  }

  /** If no new pack happens to carry a marked name, the backup has written every chunk once at most. */
  lemma EachChunkIsWrittenOnce(b: Backup)
    requires b.Valid() && forall p | p in b.newPacks :: p.pack !in b.marked
    ensures forall i, j, k, l | 0 <= i < |b.newPacks| && 0 <= j < |b.newPacks|
              && 0 <= k < |b.newPacks[i].entries| && 0 <= l < |b.newPacks[j].entries| && (i, k) != (j, l) ::
              b.newPacks[i].entries[k].id != b.newPacks[j].entries[l].id
    ensures forall p, e | p in b.newPacks && e in p.entries :: !b.packer.Holds(e.id)
  {
    hide PackWriter.Valid, Readable, InStore, Addressed, MapOf;
    forall i, j, k, l | 0 <= i < |b.newPacks| && 0 <= j < |b.newPacks|
        && 0 <= k < |b.newPacks[i].entries| && 0 <= l < |b.newPacks[j].entries| && (i, k) != (j, l)
      ensures b.newPacks[i].entries[k].id != b.newPacks[j].entries[l].id
    {
      var p, q := b.newPacks[i], b.newPacks[j];
      assert p in b.newPacks && p.entries[k] in p.entries && q.entries[l] in q.entries;
      if i == j {
        assert Uploaded(b.crypto, b.maxChunk, b.store, p);
      }
    }
  }

  /** A chunk found outside marked packs is settled, or it is in the open pack. */
  lemma FoundIsKnown(b: Backup, id: Id)
    requires b.Valid() && b.index.Answer(id).Some? && b.index.Answer(id).value.pack !in b.marked
    ensures b.Known(id) && (b.Settled(id) || b.Pending(id)) && (b.index.Answer(id).value.pack == PENDING ==> b.Accounted(id))
  {
  }

  lemma StillUnsettled(b: Backup, id: Id, answer: Option<Location>)
    requires b.index.Answer(id) == answer && (answer.None? || answer.value.pack == PENDING || answer.value.pack in b.marked)
    ensures !b.Settled(id)
  {
  }

  lemma PackIsOpen(b: Backup, at: imap<Id, Location>)
    requires BeforeSealing(b, at) && b.packer.Valid() && b.index.Valid()
    requires forall e | e in b.packer.entries :: b.index.Answer(e.id) == Some(Place(PENDING, e))
    requires forall id | b.Pending(id) :: b.packer.Holds(id)
    requires forall id | id in at :: b.index.Answer(id) == Some(at[id])
    requires forall id | b.Settled(id) :: id in at
    ensures b.Valid() && b.Spares(at.Keys, b.newPacks)
  {
    hide Uploaded, InStore, Addressed, MapOf, PackWriter.Valid, StrictlySorted;
  }

  lemma SealedIsValid(b: Backup, p: FinishedPack, at: imap<Id, Location>)
    requires BeforeSealing(b, at) && b.packer.Valid() && b.index.Valid() && b.packer.entries == []
    requires Sound(b.crypto, p, b.maxChunk) && p.id != PENDING
    requires forall id | id in at :: b.index.Answer(id) == Some(at[id])
    requires forall id :: !b.Pending(id) && (b.Settled(id) ==> id in at || b.PlacedIn(p, id))
    requires forall e | e in p.entries :: e.id !in at && b.index.Answer(e.id) == Some(Place(p.id, e))
    ensures b.ValidBefore(p) && b.Spares(at.Keys, b.newPacks)
  {
    hide Sound, Uploaded, InStore, Addressed, MapOf, PackWriter.Valid, StrictlySorted;
  }

  lemma WhatIsSealed(b: Backup, p: FinishedPack)
    requires b.ValidBefore(p)
    ensures b.crypto.Valid() && b.packer.entries == [] && forall id :: !b.Pending(id)
  {
  }

  lemma NamedByBytes(c: Crypto, p: FinishedPack, maxChunk: nat)
    requires c.Valid() && Sound(c, p, maxChunk)
    ensures p.id != PENDING
  {
  }

  lemma ChunkReadsBack(b: Backup, raw: Bytes)
    requires b.Valid() && b.Known(b.crypto.chunkId(raw)) && !b.Pending(b.crypto.chunkId(raw))
    ensures b.ReadChunk(b.crypto.chunkId(raw)) == Some(raw)
  {
    hide DecodeChunk;
    var id := b.crypto.chunkId(raw);
    var loc := b.index.Answer(id).value;
    DecodedIsGenuine(b.crypto, id, b.store[loc.pack][loc.offset..loc.offset + loc.length], loc.rawLen, b.maxChunk, raw);
  }

  /** Once nothing is pending, the chunk ids of a file read back as the file. */
  lemma {:induction false} FileReadsBack(b: Backup, chunks: seq<Bytes>)
    requires b.Valid() && forall id :: !b.Pending(id)
    requires forall id | id in Ids(b.crypto, chunks) :: b.Known(id)
    ensures b.ReadAll(Ids(b.crypto, chunks)) == Some(Chunking.Concat(chunks))
    decreases |chunks|
  {
    hide Backup.Known, Backup.Valid, Backup.ReadChunk, Backup.Pending;
    if chunks != [] {
      var ids := Ids(b.crypto, chunks);
      assert ids[0] in ids && ids[1..] == Ids(b.crypto, chunks[1..]);
      forall id | id in Ids(b.crypto, chunks[1..]) ensures b.Known(id) {
        assert id in ids;
      }
      ChunkReadsBack(b, chunks[0]);
      FileReadsBack(b, chunks[1..]);
    }
  }

  function LengthOf(chunks: seq<Bytes>): (n: nat)
    ensures n == |Chunking.Concat(chunks)|
  {
    if chunks == [] then 0 else |chunks[0]| + LengthOf(chunks[1..])
  }

  lemma {:induction false} ConcatAdds(a: seq<Bytes>, b: seq<Bytes>)
    ensures Chunking.Concat(a + b) == Chunking.Concat(a) + Chunking.Concat(b)
    decreases |a|
  {
    if a == [] {
      assert a + b == b;
    } else {
      ConcatAdds(a[1..], b);
      assert (a + b)[1..] == a[1..] + b;
    }
  }

  lemma ConcatSplit(chunks: seq<Bytes>, from: nat, next: nat)
    requires from <= next <= |chunks|
    ensures Chunking.Concat(chunks[..next]) == Chunking.Concat(chunks[..from]) + Chunking.Concat(chunks[from..next])
  {
    assert chunks[..next] == chunks[..from] + chunks[from..next];
    ConcatAdds(chunks[..from], chunks[from..next]);
  }
}
