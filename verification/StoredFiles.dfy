/** From the bytes of files to their entries and back (backup.rs `process_file`, restore.rs `resolve_chunks`): any number
  of files stored one after the other, the last pack flushed, and every file reads back. */
module StoredFiles {
  import opened Wrappers
  import opened ChunkTable
  import opened ChunkIndexing
  import opened PackFormat
  import opened Packing
  import opened WritePath
  import Chunking

  /** A longer list of chunks is stored as data itself. */
  const MAX_INLINE_CHUNKS: nat := 256

  /** How a list of chunks is written. */
  datatype ListCodec = ListCodec(encode: seq<Id> -> Bytes, parse: Bytes -> Option<seq<Id>>) {
    ghost predicate Valid() {
      forall ids :: parse(encode(ids)) == Some(ids)
    }
  }

  /** What the entry of a file says of its content; with `indirect` the chunks hold the list of chunks. */
  datatype FileContent = FileContent(size: nat, chunks: seq<Id>, indirect: bool)

  ghost function DataIds(c: Crypto, cutter: Chunking.Cutter, bytes: Bytes): seq<Id>
    requires cutter.Valid()
  {
    Ids(c, Chunking.Chunks(cutter, bytes))
  }

  ghost predicate Indirect(c: Crypto, cutter: Chunking.Cutter, bytes: Bytes)
    requires cutter.Valid()
  {
    |DataIds(c, cutter, bytes)| > MAX_INLINE_CHUNKS
  }

  /** The content of a file is a function of its bytes. */
  ghost function ContentOf(c: Crypto, cutter: Chunking.Cutter, codec: ListCodec, bytes: Bytes): FileContent
    requires cutter.Valid()
  {
    var ids := DataIds(c, cutter, bytes);
    if Indirect(c, cutter, bytes) then FileContent(|bytes|, DataIds(c, cutter, codec.encode(ids)), true)
    else FileContent(|bytes|, ids, false)
  }

  ghost predicate AllKnown(b: Backup, ids: seq<Id>)
    reads b, b.index
  {
    forall id | id in ids :: b.Known(id)
  }

  ghost predicate AllAccounted(b: Backup, ids: seq<Id>)
    reads b, b.packer
  {
    forall id | id in ids :: b.Accounted(id)
  }

  /** All chunks of the file, and those of its list, can be read or are pending. */
  ghost predicate Stored(b: Backup, cutter: Chunking.Cutter, codec: ListCodec, bytes: Bytes)
    requires cutter.Valid()
    reads b, b.index
  {
    var ids := DataIds(b.crypto, cutter, bytes);
    AllKnown(b, ids)
    && (Indirect(b.crypto, cutter, bytes) ==> AllKnown(b, DataIds(b.crypto, cutter, codec.encode(ids))))
  }

  /** ... and the commit gate will look at all of them, or they are in packs of this backup. */
  ghost predicate Answered(b: Backup, cutter: Chunking.Cutter, codec: ListCodec, bytes: Bytes)
    requires cutter.Valid()
    reads b, b.packer
  {
    var ids := DataIds(b.crypto, cutter, bytes);
    AllAccounted(b, ids)
    && (Indirect(b.crypto, cutter, bytes) ==> AllAccounted(b, DataIds(b.crypto, cutter, codec.encode(ids))))
  }

  /** Stores one file: its chunks, and their list if it is long. */
  method ProcessFile(b: Backup, cutter: Chunking.Cutter, codec: ListCodec, reader: Chunking.Reader, nonces: nat -> nat)
    returns (r: Option<FileContent>)
    requires b.Valid() && cutter.Valid() && cutter.sizes.max == b.maxChunk
    modifies reader, b.index, b.packer`buf, b.packer`entries, b`store, b`newPacks, b`referenced
    ensures b.Valid() && (r.None? ==> Chunking.Fail in old(reader.schedule))
    ensures Chunking.Fails(reader.schedule) == Chunking.Fails(old(reader.schedule)) - if r.None? then 1 else 0
    ensures r.Some? ==> r.value == ContentOf(b.crypto, cutter, codec, old(reader.rest))
    ensures r.Some? ==> Stored(b, cutter, codec, old(reader.rest)) && Answered(b, cutter, codec, old(reader.rest))
    ensures forall id :: old(b.Known(id)) ==> b.Known(id)
    ensures forall id :: old(b.Accounted(id)) ==> b.Accounted(id)
    ensures b.Spares(old(b.SettledIds()), old(b.newPacks))
    ensures old(b.HasRoom()) ==> b.HasRoom() && forall k | |old(b.newPacks)| <= k < |b.newPacks| :: b.Filled(b.newPacks[k])
  {
    hide Backup.Known, Backup.Accounted, Backup.Valid, Chunking.Chunks, Backup.Spares, Backup.Settled, Backup.SettledIds;
    ghost var bytes, settled, packs := reader.rest, b.SettledIds(), b.newPacks;
    var result := b.StoreFile(cutter, reader, nonces);
    SparesSoFar(b, settled, packs);
    if result.None? {
      return None;
    }
    if |result.value.chunks| <= MAX_INLINE_CHUNKS {
      r := Some(FileContent(result.value.bytesTotal, result.value.chunks, false));
    } else {
      var list := new Chunking.Reader(codec.encode(result.value.chunks), []);
      ghost var mid, midPacks := b.SettledIds(), b.newPacks;
      var listed := b.StoreFile(cutter, list, nonces);
      SparesOn(b, settled, packs, mid, midPacks);
      r := Some(FileContent(result.value.bytesTotal, listed.value.chunks, true));
    }
  }

  // ---------- reusing an unchanged file ----------

  /** A chunk that can be read at all is the one with that id. */
  lemma {:induction false} ReadIsGenuine(b: Backup, chunks: seq<Bytes>)
    requires b.Valid() && b.ReadAll(Ids(b.crypto, chunks)).Some?
    ensures b.ReadAll(Ids(b.crypto, chunks)) == Some(Chunking.Concat(chunks))
    decreases |chunks|
  {
    hide Backup.Valid, Backup.ReadChunk;
    if chunks != [] {
      var ids := Ids(b.crypto, chunks);
      assert ids[1..] == Ids(b.crypto, chunks[1..]);
      OneIsGenuine(b, chunks[0]);
      ReadIsGenuine(b, chunks[1..]);
    }
  }

  lemma OneIsGenuine(b: Backup, raw: Bytes)
    requires b.Valid() && b.ReadChunk(b.crypto.chunkId(raw)).Some?
    ensures b.ReadChunk(b.crypto.chunkId(raw)) == Some(raw)
  {
    hide DecodeChunk;
    var id := b.crypto.chunkId(raw);
    var loc := b.index.Answer(id).value;
    DecodedIsGenuine(b.crypto, id, b.store[loc.pack][loc.offset..loc.offset + loc.length], loc.rawLen, b.maxChunk, raw);
  }

  /** The chunks one after the other, read from the store. */
  method ReadChunks(b: Backup, ids: seq<Id>) returns (r: Option<Bytes>)
    requires b.Valid()
    ensures r == b.ReadAll(ids)
  {
    hide Backup.ReadChunk, DecodeChunk;
    var bytes: Bytes := [];
    assert ids[0..] == ids && forall rest: Bytes :: bytes + rest == rest;
    for i := 0 to |ids|
      invariant b.ReadAll(ids) ==
                match b.ReadAll(ids[i..]) case Some(rest) => Some(bytes + rest) case None => None
    {
      assert ids[i..][0] == ids[i] && ids[i..][1..] == ids[i + 1..];
      var one := ReadOne(b, ids[i]);
      if one.None? {
        return None;
      }
      ghost var before := bytes;
      bytes := bytes + one.value;
      assert forall rest :: before + (one.value + rest) == bytes + rest;
    }
    assert bytes + [] == bytes;
    r := Some(bytes);
  }

  method ReadOne(b: Backup, id: Id) returns (r: Option<Bytes>)
    requires b.Valid()
    ensures r == b.ReadChunk(id)
  {
    hide DecodeChunk;
    var loc := b.index.Get(id);
    if loc.None? || loc.value.pack !in b.store {
      return None;
    }
    var pack := b.store[loc.value.pack];
    if loc.value.offset + loc.value.length > |pack| {
      return None;
    }
    var out := DecodeChunk(b.crypto, id, pack[loc.value.offset..loc.value.offset + loc.value.length], loc.value.rawLen, b.maxChunk);
    r := match out case Ok(plain) => Some(plain) case Err(_) => None;
  }

  /** The list of the data chunks of an entry, if it can be read. */
  ghost function DataOf(b: Backup, codec: ListCodec, f: FileContent): Option<seq<Id>>
    reads b, b.index
  {
    if !f.indirect then Some(f.chunks)
    else match b.ReadAll(f.chunks) case Some(list) => codec.parse(list) case None => None
  }

  /** Every chunk of the entry, and of its list, is in the open pack or in one that stays. */
  ghost predicate AtHand(b: Backup, codec: ListCodec, f: FileContent)
    reads b, b.index
  {
    && DataOf(b, codec, f).Some?
    && forall id | id in DataOf(b, codec, f).value || (f.indirect && id in f.chunks) :: b.Settled(id) || b.Pending(id)
  }

  /** Where the chunks are, if all are known and none is in a pack marked for deletion. */
  method PacksOfChunks(b: Backup, ids: seq<Id>) returns (found: Option<seq<(Id, Id)>>)
    requires b.Valid()
    ensures found.Some? ==> forall id | id in ids :: b.Known(id) && (b.Accounted(id) || b.ReusedFrom(id, found.value))
    ensures found.Some? ==> forall id | id in ids :: b.Settled(id) || b.Pending(id)
    ensures found.None? ==> exists id :: id in ids && !b.Pending(id) && !b.Settled(id)
  {
    hide Backup.Valid, Backup.Accounted;
    var packs: seq<(Id, Id)> := [];
    for i := 0 to |ids|
      invariant forall k | 0 <= k < i ::
                  && b.Known(ids[k]) && (b.Accounted(ids[k]) || b.ReusedFrom(ids[k], packs))
                  && (b.Settled(ids[k]) || b.Pending(ids[k]))
    {
      ValidParts(b);
      var loc := b.index.Get(ids[i]);
      if loc.None? || loc.value.pack in b.marked {
        assert ids[i] in ids && !b.Pending(ids[i]) && !b.Settled(ids[i]);
        return None;
      }
      ghost var before := packs;
      packs := packs + [(ids[i], loc.value.pack)];
      FoundIsKnown(b, ids[i]);
      assert (ids[i], loc.value.pack) in packs;
      forall x: Id | b.ReusedFrom(x, before) ensures b.ReusedFrom(x, packs) {
        var p :| (x, p) in before && p != PENDING && p !in b.marked;
        assert (x, p) in packs;
      }
    }
    found := Some(packs);
  }

  lemma ValidParts(b: Backup)
    requires b.Valid()
    ensures b.index.Valid() && PENDING !in b.marked
  {
  }

  /** The entry of the parent is taken over if the file is proven unchanged and every chunk of it, and of its list, is in
      a pack that stays. What is taken over is what storing the file again would give. */
  method TryReuse(b: Backup, codec: ListCodec, parent: FileContent, proven: bool,
                  ghost cutter: Chunking.Cutter, ghost bytes: Bytes)
    returns (r: Option<FileContent>)
    requires b.Valid() && cutter.Valid() && codec.Valid()
    requires proven ==> parent == ContentOf(b.crypto, cutter, codec, bytes)
    modifies b`referenced
    ensures b.Valid() && (r.Some? <==> proven && old(AtHand(b, codec, parent)))
    ensures b.Spares(old(b.SettledIds()), b.newPacks)
    ensures r.Some? ==> r.value == ContentOf(b.crypto, cutter, codec, bytes)
    ensures r.Some? ==> Stored(b, cutter, codec, bytes) && Answered(b, cutter, codec, bytes)
    ensures forall id :: old(b.Known(id)) ==> b.Known(id)
    ensures forall id :: old(b.Accounted(id)) ==> b.Accounted(id)
  {
    hide Backup.Valid, Backup.Known, Backup.Accounted, Backup.ReadAll, Chunking.Chunks, Backup.ReusedFrom;
    hide Backup.Settled, Backup.Pending, Backup.Spares, Backup.SettledIds;
    SparesNow(b);
    if !proven {
      return None;
    }
    var ids, lists := parent.chunks, [];
    if parent.indirect {
      var list := ReadChunks(b, parent.chunks);
      if list.None? {
        return None;
      }
      var parsed := codec.parse(list.value);
      if parsed.None? {
        return None;
      }
      ghost var written := codec.encode(DataIds(b.crypto, cutter, bytes));
      Chunking.ChunksConcatenate(cutter, written);
      ReadIsGenuine(b, Chunking.Chunks(cutter, written));
      ids, lists := parsed.value, parent.chunks;
    }
    assert ids == DataIds(b.crypto, cutter, bytes) && Some(ids) == DataOf(b, codec, parent);
    var packs := PacksOfChunks(b, ids + lists);
    if packs.None? {
      return None;
    }
    assert forall id | id in ids || id in lists :: id in ids + lists;
    b.RecordReferenced(packs.value);
    r := Some(parent);
  }

  /** A file of the source: its bytes, and how its reads go. */
  datatype Source = Source(bytes: Bytes, schedule: seq<Chunking.Answer>)

  /** Reading a file back: its list, if it has one, then its chunks; the size must be right. */
  ghost function ReadFile(b: Backup, codec: ListCodec, f: FileContent): Option<Bytes>
    reads b, b.index
  {
    match DataOf(b, codec, f)
    case None => None
    case Some(ids) =>
      match b.ReadAll(ids)
      case Some(bytes) => if |bytes| == f.size then Some(bytes) else None
      case None => None
  }

  lemma StoredReadsBack(b: Backup, cutter: Chunking.Cutter, codec: ListCodec, bytes: Bytes)
    requires b.Valid() && cutter.Valid() && codec.Valid() && Stored(b, cutter, codec, bytes) && forall id :: !b.Pending(id)
    ensures ReadFile(b, codec, ContentOf(b.crypto, cutter, codec, bytes)) == Some(bytes)
  {
    hide Backup.Known, Backup.Valid, Backup.Pending, Chunking.Chunks, Backup.ReadAll;
    var chunks := Chunking.Chunks(cutter, bytes);
    Chunking.ChunksConcatenate(cutter, bytes);
    FileReadsBack(b, chunks);
    if Indirect(b.crypto, cutter, bytes) {
      var list := codec.encode(DataIds(b.crypto, cutter, bytes));
      Chunking.ChunksConcatenate(cutter, list);
      FileReadsBack(b, Chunking.Chunks(cutter, list));
    }
  }

  /** Any files, in one go: those that could be read are read back exactly, from the packs in the store. */
  method BackupFiles(b: Backup, cutter: Chunking.Cutter, codec: ListCodec, files: seq<Source>, nonces: nat -> nat)
    returns (contents: seq<Option<FileContent>>)
    requires b.Valid() && cutter.Valid() && codec.Valid() && cutter.sizes.max == b.maxChunk
    modifies b.index, b.packer`buf, b.packer`entries, b`store, b`newPacks, b`referenced
    ensures b.Valid() && |contents| == |files| && forall id :: !b.Pending(id)
    ensures forall i | 0 <= i < |files| && contents[i].None? :: Chunking.Fail in files[i].schedule
    ensures forall i | 0 <= i < |files| && contents[i].Some? ::
              && ReadFile(b, codec, contents[i].value) == Some(files[i].bytes)
              && Answered(b, cutter, codec, files[i].bytes)
    ensures b.Spares(old(b.SettledIds()), old(b.newPacks))
    ensures old(b.HasRoom()) ==> forall k | |old(b.newPacks)| <= k < |b.newPacks| - 1 :: b.Filled(b.newPacks[k])
  {
    hide Backup.Known, Backup.Accounted, Backup.Valid, Chunking.Chunks, ReadFile, Backup.Pending;
    hide Backup.Spares, Backup.Settled, Backup.SettledIds;
    ghost var settled, packs := b.SettledIds(), b.newPacks;
    SparesNow(b);
    contents := [];
    for i := 0 to |files|
      invariant b.Valid() && |contents| == i
      invariant forall k | 0 <= k < i && contents[k].None? :: Chunking.Fail in files[k].schedule
      invariant forall k | 0 <= k < i && contents[k].Some? ::
                  && contents[k].value == ContentOf(b.crypto, cutter, codec, files[k].bytes)
                  && Stored(b, cutter, codec, files[k].bytes) && Answered(b, cutter, codec, files[k].bytes)
      invariant b.Spares(settled, packs) && |packs| <= |b.newPacks|
      invariant old(b.HasRoom()) ==> b.HasRoom() && forall k | |packs| <= k < |b.newPacks| :: b.Filled(b.newPacks[k])
    {
      var reader := new Chunking.Reader(files[i].bytes, files[i].schedule);
      ghost var mid, midPacks := b.SettledIds(), b.newPacks;
      SparesSoFar(b, settled, packs);
      var r := ProcessFile(b, cutter, codec, reader, nonces);
      SparesOn(b, settled, packs, mid, midPacks);
      contents := contents + [r];
    }
    ghost var mid, midPacks := b.SettledIds(), b.newPacks;
    SparesSoFar(b, settled, packs);
    b.FlushPack(nonces(0));
    SparesOn(b, settled, packs, mid, midPacks);
    forall i | 0 <= i < |files| && contents[i].Some?
      ensures ReadFile(b, codec, contents[i].value) == Some(files[i].bytes)
      ensures Answered(b, cutter, codec, files[i].bytes)
    {
      assert Stored(b, cutter, codec, files[i].bytes);
      StoredReadsBack(b, cutter, codec, files[i].bytes);
    }
  }
}
