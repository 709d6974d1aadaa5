/** The bytes of a pack: sealed chunks, a sealed trailer that places them, a footer that finds the
  trailer (kist-format/pack.rs, kist-core/pack.rs). */
module PackFormat {
  import opened Wrappers
  import opened ChunkTable

  type Bytes = seq<Byte>

  const FORMAT_VERSION: nat := 3

  /** `kistpk` and the version, big-endian. */
  const MAGIC: Bytes := [0x6B, 0x69, 0x73, 0x74, 0x70, 0x6B, 0, 3]

  const HEADER_LEN: nat := 8
  const FOOTER_LEN: nat := 16

  /** Nonce and tag of a sealed chunk. */
  const SEAL_LEN: nat := 40

  const MIN_ENTRY_LEN: nat := 41
  const MAX_CHUNKER_MAX: nat := 64 * 1024 * 1024
  const MAX_ENTRY_LEN: nat := MAX_CHUNKER_MAX + 1 + 40

  // ---------- numbers in the footer ----------

  function Power256(k: nat): (p: nat)
    ensures p > 0
  {
    if k == 0 then 1 else 256 * Power256(k - 1)
  }

  /** `n` in `k` bytes, big-endian. */
  function ToBe(n: nat, k: nat): (bs: Bytes)
    ensures |bs| == k
  {
    if k == 0 then [] else ToBe(n / 256, k - 1) + [n % 256]
  }

  function FromBe(bs: Bytes): nat {
    if bs == [] then 0 else FromBe(bs[..|bs| - 1]) * 256 + bs[|bs| - 1]
  }

  lemma {:induction false} BeRoundTrip(n: nat, k: nat)
    requires n < Power256(k)
    ensures FromBe(ToBe(n, k)) == n
    decreases k
  {
    if k > 0 {
      BeRoundTrip(n / 256, k - 1);
      assert ToBe(n, k)[..k - 1] == ToBe(n / 256, k - 1);
    }
  }

  // ---------- the layout ----------

  datatype FormatError =
    | Truncated(what: string, needed: nat, actual: nat)
    | BadMagic(what: string)

  /** `finish` */
  function Seal(pack: Bytes, trailer: Bytes): Bytes {
    pack + trailer + ToBe(|trailer|, 8) + MAGIC
  }

  /** `parse_footer` */
  function ParseFooter(bytes: Bytes): Result<nat, FormatError> {
    if |bytes| < FOOTER_LEN then Err(Truncated("pack footer", FOOTER_LEN, |bytes|))
    else
      var footer := bytes[|bytes| - FOOTER_LEN..];
      if footer[8..] != MAGIC then Err(BadMagic("pack footer")) else Ok(FromBe(footer[..8]))
  }

  /** The last bytes of a pack are enough to read its footer; it is one exactly if it ends in the magic. */
  lemma FooterIsEnough(pack: Bytes)
    requires |pack| >= FOOTER_LEN
    ensures ParseFooter(pack[|pack| - FOOTER_LEN..]) == ParseFooter(pack)
    ensures ParseFooter(pack).Ok? <==> pack[|pack| - |MAGIC|..] == MAGIC
  {
    var footer := pack[|pack| - FOOTER_LEN..];
    assert footer[|footer| - FOOTER_LEN..] == footer && footer[8..] == pack[|pack| - |MAGIC|..];
  }

  /** `trailer_bytes` */
  function TrailerBytes(pack: Bytes): (r: Result<Bytes, FormatError>)
    ensures r.Ok? ==> |r.value| + HEADER_LEN + FOOTER_LEN <= |pack|
  {
    if |pack| < HEADER_LEN + FOOTER_LEN then Err(Truncated("pack", HEADER_LEN + FOOTER_LEN, |pack|))
    else if pack[..HEADER_LEN] != MAGIC then Err(BadMagic("pack header"))
    else
      var len := ParseFooter(pack);
      var end := |pack| - FOOTER_LEN;
      if len.Err? then Err(len.error)
      else if end < len.value + HEADER_LEN then Err(Truncated("pack trailer", len.value, end - HEADER_LEN))
      else Ok(pack[end - len.value..end])
  }

  /** The trailer of a finished pack is found again, right behind the chunks. */
  lemma TrailerIsFound(pack: Bytes, trailer: Bytes)
    requires MAGIC <= pack && |trailer| < Power256(8)
    ensures TrailerBytes(Seal(pack, trailer)) == Ok(trailer)
    ensures |Seal(pack, trailer)| - FOOTER_LEN - |trailer| == |pack|
  {
    var all := Seal(pack, trailer);
    var be := ToBe(|trailer|, 8);
    BeRoundTrip(|trailer|, 8);
    assert all[|all| - FOOTER_LEN..] == be + MAGIC;
    assert (be + MAGIC)[..8] == be && (be + MAGIC)[8..] == MAGIC;
    assert all[..HEADER_LEN] == MAGIC;
    assert all[|pack|..|pack| + |trailer|] == trailer;
  }

  /** Whatever is read as a trailer is framed by the two magics and the length in the footer. */
  lemma TrailerIsFramed(pack: Bytes, trailer: Bytes)
    requires TrailerBytes(pack) == Ok(trailer)
    ensures exists data: Bytes, len: Bytes ::
              MAGIC <= data && |len| == 8 && FromBe(len) == |trailer| && pack == data + trailer + len + MAGIC
  {
    var end := |pack| - FOOTER_LEN;
    var footer := pack[end..];
    var data, len := pack[..end - |trailer|], footer[..8];
    assert footer == len + footer[8..];
    assert pack == data + trailer + footer;
    assert MAGIC <= data by { assert data[..HEADER_LEN] == pack[..HEADER_LEN]; }
  }

  // ---------- the trailer ----------

  datatype Trailer = Trailer(version: nat, entries: seq<PackEntry>)

  /** The entries cover `[from, end)` one after the other. */
  ghost predicate Tiles(es: seq<PackEntry>, from: nat, end: nat) {
    if es == [] then from == end
    else
      var last := es[|es| - 1];
      && MIN_ENTRY_LEN <= last.length <= MAX_ENTRY_LEN && last.offset + last.length == end
      && Tiles(es[..|es| - 1], from, last.offset)
  }

  /** What the format demands of a trailer. */
  ghost predicate Consistent(es: seq<PackEntry>, dataEnd: nat) {
    es != [] && Tiles(es, HEADER_LEN, dataEnd) && DistinctIds(es)
  }

  lemma {:induction false} TilesFromStart(es: seq<PackEntry>, i: nat, from: nat, end: nat)
    requires i <= |es| && Tiles(es, from, end)
    ensures exists mid: nat :: Tiles(es[..i], from, mid) && mid <= end && (i < |es| ==> es[i].offset == mid)
    decreases |es|
  {
    if i == |es| {
      assert es[..i] == es;
    } else {
      var last := es[|es| - 1];
      TilesFromStart(es[..|es| - 1], i, from, last.offset);
      assert es[..|es| - 1][..i] == es[..i];
    }
  }

  lemma {:induction false} TilesEndOnce(es: seq<PackEntry>, from: nat, a: nat, b: nat)
    requires Tiles(es, from, a) && Tiles(es, from, b)
    ensures a == b
  {
  }

  lemma TilesSnoc(es: seq<PackEntry>, e: PackEntry, from: nat, mid: nat)
    requires Tiles(es, from, mid) && e.offset == mid && MIN_ENTRY_LEN <= e.length <= MAX_ENTRY_LEN
    ensures Tiles(es + [e], from, mid + e.length)
  {
    assert (es + [e])[..|es|] == es;
  }

  /** A prefix that does not tile, or that runs past the end, spoils the whole. */
  lemma TilesNext(es: seq<PackEntry>, i: nat, next: nat, dataEnd: nat)
    requires i < |es| && Tiles(es[..i], HEADER_LEN, next) && Tiles(es, HEADER_LEN, dataEnd)
    ensures es[i].offset == next && MIN_ENTRY_LEN <= es[i].length <= MAX_ENTRY_LEN
    ensures next + es[i].length <= dataEnd
  {
    TilesFromStart(es, i, HEADER_LEN, dataEnd);
    var a: nat :| Tiles(es[..i], HEADER_LEN, a) && es[i].offset == a;
    TilesEndOnce(es[..i], HEADER_LEN, a, next);
    TilesFromStart(es, i + 1, HEADER_LEN, dataEnd);
    var b: nat :| Tiles(es[..i + 1], HEADER_LEN, b) && b <= dataEnd;
    assert es[..i + 1][..i] == es[..i];
  }

  /** `validate_trailer`: accepts exactly the consistent trailers. */
  method ValidateTrailer(es: seq<PackEntry>, dataEnd: nat) returns (ok: bool)
    ensures ok <==> Consistent(es, dataEnd)
  {
    if es == [] {
      return false;
    }
    var next: nat := HEADER_LEN;
    var seen: set<Id> := {};
    for i := 0 to |es|
      invariant Tiles(es[..i], HEADER_LEN, next)
      invariant DistinctIds(es[..i]) && seen == set k | 0 <= k < i :: es[k].id
    {
      var e := es[i];
      if Tiles(es, HEADER_LEN, dataEnd) {
        TilesNext(es, i, next, dataEnd);
      }
      if e.offset != next || e.length < MIN_ENTRY_LEN || e.length > MAX_ENTRY_LEN {
        return false;
      }
      var end := e.offset + e.length;
      if end > dataEnd {
        return false;
      }
      if e.id in seen {
        var k :| 0 <= k < i && es[k].id == e.id;
        return false;
      }
      seen := seen + {e.id};
      TilesSnoc(es[..i], e, HEADER_LEN, next);
      assert es[..i + 1] == es[..i] + [e];
      next := end;
    }
    assert es[..|es|] == es;
    if next != dataEnd && Tiles(es, HEADER_LEN, dataEnd) {
      TilesEndOnce(es, HEADER_LEN, next, dataEnd);
    }
    ok := next == dataEnd;
  }
}
