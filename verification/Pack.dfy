/** Writing and reading packs (kist-core/pack.rs). Encryption, hashing, zstd and CBOR are parameters of
  which only their inverses are known. */
module Packing {
  import opened Wrappers
  import opened ChunkTable
  import opened PackFormat

  datatype Crypto = Crypto(
    /** Keyed hash of a chunk, and hash of a pack. */
    chunkId: Bytes -> Id,
    packName: Bytes -> Id,
    /** The first argument is the random nonce; the id is authenticated along. */
    sealChunk: (nat, Id, Bytes) -> Bytes,
    openChunk: (Id, Bytes) -> Option<Bytes>,
    sealTrailer: (nat, Bytes) -> Bytes,
    openTrailer: Bytes -> Option<Bytes>,
    zstd: Bytes -> Bytes,
    unzstd: Bytes -> Option<Bytes>,
    encode: Trailer -> Bytes,
    decode: Bytes -> Option<Trailer>)
  {
    ghost predicate Valid() {
      && (forall a, b | chunkId(a) == chunkId(b) :: a == b)
      && (forall a, b | packName(a) == packName(b) :: a == b)
      && (forall a :: packName(a) != 0)
      && (forall n, id, p :: openChunk(id, sealChunk(n, id, p)) == Some(p))
      && (forall n, id, p :: |sealChunk(n, id, p)| == |p| + SEAL_LEN)
      && (forall n, p :: openTrailer(sealTrailer(n, p)) == Some(p))
      && (forall p :: unzstd(zstd(p)) == Some(p))
      && (forall t :: decode(encode(t)) == Some(t))
    }
  }

  // ---------- one chunk ----------

  const RAW: Byte := 0
  const ZSTD: Byte := 1

  /** `compress_chunk`: compressed only if that saves more than a sixteenth. */
  function Compress(c: Crypto, raw: Bytes): (payload: Bytes)
    ensures var z := c.zstd(raw);
            payload == if 16 * (|raw| - |z|) > |raw| then [ZSTD] + z else [RAW] + raw
  {
    var z := c.zstd(raw);
    if |z| < |raw| - |raw| / 16 then [ZSTD] + z else [RAW] + raw
  }

  datatype ChunkError = NotAuthentic | BadPayload | UnknownAlgorithm | TooLarge | WrongLength | WrongId

  /** `decompress_chunk` */
  function Decompress(c: Crypto, payload: Bytes, limit: nat): Result<Bytes, ChunkError> {
    if payload == [] then Err(BadPayload)
    else if payload[0] == RAW then Ok(payload[1..])
    else if payload[0] != ZSTD then Err(UnknownAlgorithm)
    else
      match c.unzstd(payload[1..])
      case None => Err(BadPayload)
      case Some(out) => if |out| > limit then Err(TooLarge) else Ok(out)
  }

  /** `decode_chunk` */
  function DecodeChunk(c: Crypto, id: Id, entry: Bytes, rawLen: nat, maxChunk: nat): Result<Bytes, ChunkError> {
    match c.openChunk(id, entry)
    case None => Err(NotAuthentic)
    case Some(payload) =>
      var plain := Decompress(c, payload, maxChunk);
      if plain.Err? then plain
      else if |plain.value| != rawLen then Err(WrongLength)
      else if c.chunkId(plain.value) != id then Err(WrongId)
      else plain
  }

  lemma SealedChunkOpens(c: Crypto, nonce: nat, raw: Bytes, maxChunk: nat)
    requires c.Valid() && |raw| <= maxChunk
    ensures var id := c.chunkId(raw);
            DecodeChunk(c, id, c.sealChunk(nonce, id, Compress(c, raw)), |raw|, maxChunk) == Ok(raw)
    ensures 1 <= |Compress(c, raw)| <= |raw| + 1
  {
    var z := c.zstd(raw);
    assert ([ZSTD] + z)[1..] == z && ([RAW] + raw)[1..] == raw;
  }

  /** Whatever decodes under an id is the one plaintext with that id. */
  lemma DecodedIsGenuine(c: Crypto, id: Id, entry: Bytes, rawLen: nat, maxChunk: nat, raw: Bytes)
    requires c.Valid() && DecodeChunk(c, id, entry, rawLen, maxChunk).Ok? && c.chunkId(raw) == id
    ensures DecodeChunk(c, id, entry, rawLen, maxChunk) == Ok(raw) && rawLen == |raw|
  {
  }

  // ---------- a whole pack ----------

  datatype TrailerError = Layout(error: FormatError) | Sealed | Encoding | Version(found: nat) | Inconsistent

  /** `read_trailer` and `decode_trailer` */
  method ReadTrailer(c: Crypto, pack: Bytes) returns (r: Result<Trailer, TrailerError>)
    ensures r.Ok? ==>
              && TrailerBytes(pack).Ok? && r.value.version == FORMAT_VERSION
              && Consistent(r.value.entries, |pack| - FOOTER_LEN - |TrailerBytes(pack).value|)
    ensures r.Ok? <==> ReadableTrailer(c, pack)
    ensures r.Ok? ==> Some(r.value) == TrailerOf(c, pack)
  {
    var sealed := TrailerBytes(pack);
    if sealed.Err? {
      return Err(Layout(sealed.error));
    }
    var dataEnd := |pack| - FOOTER_LEN - |sealed.value|;
    var plain := c.openTrailer(sealed.value);
    if plain.None? {
      return Err(Sealed);
    }
    var trailer := c.decode(plain.value);
    if trailer.None? {
      return Err(Encoding);
    }
    if trailer.value.version != FORMAT_VERSION {
      return Err(Version(trailer.value.version));
    }
    var ok := ValidateTrailer(trailer.value.entries, dataEnd);
    r := if ok then Ok(trailer.value) else Err(Inconsistent);
  }

  /** What the trailer of `pack` decodes to, if it can be found, opened and decoded. */
  function TrailerOf(c: Crypto, pack: Bytes): Option<Trailer> {
    match TrailerBytes(pack)
    case Err(_) => None
    case Ok(sealed) =>
      match c.openTrailer(sealed)
      case None => None
      case Some(plain) => c.decode(plain)
  }

  ghost predicate ReadableTrailer(c: Crypto, pack: Bytes) {
    && TrailerOf(c, pack).Some? && TrailerOf(c, pack).value.version == FORMAT_VERSION
    && Consistent(TrailerOf(c, pack).value.entries, |pack| - FOOTER_LEN - |TrailerBytes(pack).value|)
  }

  /** The entry's slice of `bytes` decodes under its id. */
  ghost predicate Readable(c: Crypto, bytes: Bytes, e: PackEntry, maxChunk: nat) {
    && e.offset + e.length <= |bytes|
    && DecodeChunk(c, e.id, bytes[e.offset..e.offset + e.length], e.rawLen, maxChunk).Ok?
  }

  lemma ReadableGrows(c: Crypto, bytes: Bytes, more: Bytes, e: PackEntry, maxChunk: nat)
    requires Readable(c, bytes, e, maxChunk)
    ensures Readable(c, bytes + more, e, maxChunk)
  {
    assert (bytes + more)[e.offset..e.offset + e.length] == bytes[e.offset..e.offset + e.length];
  }

  datatype FinishedPack = FinishedPack(id: Id, bytes: Bytes, entries: seq<PackEntry>)

  /** What a finished pack promises. */
  ghost predicate Sound(c: Crypto, p: FinishedPack, maxChunk: nat) {
    && p.id == c.packName(p.bytes)
    && (exists dataEnd: nat :: dataEnd <= |p.bytes| && Consistent(p.entries, dataEnd))
    && forall e | e in p.entries :: Readable(c, p.bytes, e, maxChunk)
  }

  function SealedTrailer(c: Crypto, nonce: nat, es: seq<PackEntry>): Bytes {
    c.sealTrailer(nonce, c.encode(Trailer(FORMAT_VERSION, es)))
  }

  class PackWriter {
    const crypto: Crypto
    const targetSize: nat
    const maxChunk: nat
    var buf: Bytes
    var entries: seq<PackEntry>

    ghost predicate Valid()
      reads this
    {
      && crypto.Valid() && maxChunk <= MAX_CHUNKER_MAX
      && MAGIC <= buf && Tiles(entries, HEADER_LEN, |buf|) && DistinctIds(entries)
      && forall e | e in entries :: Readable(crypto, buf, e, maxChunk)
    }

    ghost predicate Holds(id: Id)
      reads this
    {
      exists e :: e in entries && e.id == id
    }

    constructor (crypto: Crypto, targetSize: nat, maxChunk: nat)
      requires crypto.Valid() && maxChunk <= MAX_CHUNKER_MAX
      ensures Valid() && entries == [] && this.crypto == crypto && this.maxChunk == maxChunk
      ensures this.targetSize == targetSize
    {
      this.crypto, this.targetSize, this.maxChunk, buf, entries := crypto, targetSize, maxChunk, MAGIC, [];
    }

    predicate IsFull()
      reads this
    {
      |buf| >= targetSize
    }

    /** Compresses, seals and appends one chunk. */
    method Add(plain: Bytes, nonce: nat) returns (e: PackEntry)
      requires Valid() && |plain| <= maxChunk && !Holds(crypto.chunkId(plain))
      modifies `buf, `entries
      ensures Valid() && entries == old(entries) + [e] && old(buf) <= buf
      ensures e.id == crypto.chunkId(plain) && e.rawLen == |plain| && e.offset == |old(buf)|
      ensures |buf| == e.offset + e.length
      ensures DecodeChunk(crypto, e.id, buf[e.offset..], e.rawLen, maxChunk) == Ok(plain)
    {
      hide Compress, DecodeChunk;
      var id := crypto.chunkId(plain);
      var sealed := crypto.sealChunk(nonce, id, Compress(crypto, plain));
      SealedChunkOpens(crypto, nonce, plain, maxChunk);
      e := PackEntry(id, |buf|, |sealed|, |plain|);
      ghost var before := buf;
      forall x | x in entries ensures Readable(crypto, buf + sealed, x, maxChunk) {
        ReadableGrows(crypto, buf, sealed, x, maxChunk);
      }
      TilesSnoc(entries, e, HEADER_LEN, |buf|);
      buf := buf + sealed;
      assert buf[e.offset..] == sealed && buf[e.offset..e.offset + e.length] == sealed;
      entries := entries + [e];
    }

    /** Seals the trailer, hands over the pack and starts an empty one. */
    method Finish(nonce: nat) returns (p: Option<FinishedPack>)
      requires Valid()
      modifies `buf, `entries
      ensures Valid() && entries == []
      ensures p.None? <==> old(entries) == []
      ensures p.Some? ==> p.value.entries == old(entries) && Sound(crypto, p.value, maxChunk)
      ensures p.Some? ==> old(buf) <= p.value.bytes
      ensures p.Some? ==>
                forall e | e in old(entries) :: e.offset + e.length <= |old(buf)| <= |p.value.bytes|
                  && p.value.bytes[e.offset..e.offset + e.length] == old(buf)[e.offset..e.offset + e.length]
      ensures p.Some? && |SealedTrailer(crypto, nonce, old(entries))| < Power256(8) ==>
                ReadableTrailer(crypto, p.value.bytes)
    {
      hide DecodeChunk;
      if entries == [] {
        return None;
      }
      var done, data := entries, buf;
      entries, buf := [], MAGIC;
      var trailer := Trailer(FORMAT_VERSION, done);
      var sealed := SealedTrailer(crypto, nonce, done);
      var bytes := Seal(data, sealed);
      forall e | e in done ensures Readable(crypto, bytes, e, maxChunk)
                             && bytes[e.offset..e.offset + e.length] == data[e.offset..e.offset + e.length] {
        ReadableGrows(crypto, data, bytes[|data|..], e, maxChunk);
        assert bytes == data + bytes[|data|..];
      }
      assert Consistent(done, |data|);
      if |sealed| < Power256(8) {
        TrailerIsFound(data, sealed);
        assert TrailerOf(crypto, bytes) == Some(trailer);
      }
      p := Some(FinishedPack(crypto.packName(bytes), bytes, done));
    }
  }
}
