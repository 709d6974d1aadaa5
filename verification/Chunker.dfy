/** Content-defined chunking over a refillable buffer (kist-chunker). */
module Chunking {
  import opened Wrappers

  const TWO_64: nat := 0x1_0000_0000_0000_0000

  function Pow2(n: nat): (p: nat)
    ensures p > 0
  {
    if n == 0 then 1 else 2 * Pow2(n - 1)
  }

  datatype Params = Params(min: nat, avg: nat, max: nat) {
    /** `ChunkerParams::validate` */
    predicate Valid() {
      && 64 <= min <= 1024 * 1024
      && 256 <= avg <= 16 * 1024 * 1024
      && 1024 <= max <= 64 * 1024 * 1024
      && min <= avg <= max
    }
  }

  // ---------- the masks ----------

  lemma {:induction false} Pow2Adds(a: nat, b: nat)
    ensures Pow2(a + b) == Pow2(a) * Pow2(b)
    decreases b
  {
    if b > 0 {
      Pow2Adds(a, b - 1);
    }
  }

  lemma {:induction false} Pow2Grows(a: nat, b: nat)
    requires a <= b
    ensures Pow2(a) <= Pow2(b)
    decreases b
  {
    if a < b {
      Pow2Grows(a, b - 1);
    }
  }

  lemma BigPowers()
    ensures Pow2(32) == 0x1_0000_0000 && Pow2(64) == TWO_64
  {
    assert Pow2(8) == 256;
    Pow2Adds(8, 8);
    Pow2Adds(16, 16);
    Pow2Adds(32, 32);
  }

  lemma SquaresGrow(a: nat, v: nat, b: nat)
    requires a <= v < b
    ensures a * a <= v * v < b * b
  {
    assert a * a <= v * a <= v * v;
    assert v * v <= v * b < b * b;
  }

  lemma SquareBetween(v: nat, b: nat)
    requires Pow2(b) <= v < Pow2(b + 1)
    ensures Pow2(2 * b) <= v * v < Pow2(2 * b + 2)
  {
    hide Pow2;
    assert Pow2(2 * b) == Pow2(b) * Pow2(b) by { Pow2Adds(b, b); }
    assert Pow2(2 * b + 2) == Pow2(b + 1) * Pow2(b + 1) by { Pow2Adds(b + 1, b + 1); }
    SquaresGrow(Pow2(b), v, Pow2(b + 1));
  }

  /** `round_log2`: the binary logarithm rounded to the nearest, decided without floating point.
      Nothing overflows 64 bits on the way. */
  method RoundLog2(v: nat) returns (r: nat)
    requires 2 <= v < 0x1_0000_0000
    ensures 1 <= r <= 32
    ensures Pow2(2 * r - 1) <= v * v < Pow2(2 * r + 1)
  {
    var b := 0;
    BigPowers();
    while Pow2(b + 1) <= v
      invariant Pow2(b) <= v && b < 32
      decreases 32 - b
    {
      if b + 1 >= 32 {
        Pow2Grows(32, b + 1);
      }
      b := b + 1;
    }
    assert b >= 1;
    SquareBetween(v, b);
    Pow2Grows(2 * b + 2, 64);
    assert v * v < TWO_64 && 2 * b + 1 < 64;
    Pow2Grows(2 * b + 2, 2 * b + 3);
    Pow2Grows(2 * b - 1, 2 * b);
    r := if v * v >= Pow2(2 * b + 1) then b + 1 else b;
  }

  // ---------- where a chunk ends ----------

  /** What decides the boundaries of a repository: the sizes, the frozen gear table, and how many low
      bits of the fingerprint must be zero before and after the average size. */
  datatype Cutter = Cutter(sizes: Params, gear: seq<nat>, strict: nat, loose: nat) {
    predicate Valid() {
      sizes.Valid() && |gear| == 256 && strict < 64 && loose < 64
    }
  }

  /** `Chunker::new`: two bits more than the rounded logarithm of the average before it, two fewer after it. */
  method NewCutter(sizes: Params, gear: seq<nat>) returns (c: Cutter)
    requires sizes.Valid() && |gear| == 256
    ensures c.Valid() && c.sizes == sizes && c.gear == gear
    ensures c.loose + 4 == c.strict && c.strict >= 3
    ensures Pow2(2 * (c.strict - 2) - 1) <= sizes.avg * sizes.avg < Pow2(2 * (c.strict - 2) + 1)
  {
    var bits := RoundLog2(sizes.avg);
    if bits < 2 {
      assert Pow2(3) == 8;
      SquaresGrow(256, sizes.avg, sizes.avg + 1);
    }
    c := Cutter(sizes, gear, bits + 2, if bits < 2 then 0 else bits - 2);
  }

  /** One byte: `(fp << 1).wrapping_add(gear)`. */
  function Mix(c: Cutter, fp: nat, b: Byte): nat
    requires c.Valid()
  {
    (fp * 2 + c.gear[b]) % TWO_64
  }

  /** The fingerprint after the bytes from `min` up to `i`. */
  function Fingerprint(c: Cutter, data: seq<Byte>, i: nat): nat
    requires c.Valid() && i <= |data|
  {
    if i <= c.sizes.min then 0 else Mix(c, Fingerprint(c, data, i - 1), data[i - 1])
  }

  /** The low bits are zero: the mask is all ones, so this is the test against the mask. */
  predicate Zero(fp: nat, bits: nat) {
    fp % Pow2(bits) == 0
  }

  /** Bitwise and. */
  function And(a: nat, b: nat): nat
    decreases b
  {
    if b == 0 then 0 else 2 * And(a / 2, b / 2) + (a % 2) * (b % 2)
  }

  /** The masks of `Chunker::new`: `(1 << bits) - 1`. */
  function Mask(bits: nat): nat {
    Pow2(bits) - 1
  }

  lemma AndWithOdd(a: nat, m: nat)
    ensures And(a, 2 * m + 1) == 2 * And(a / 2, m) + a % 2
  {
    assert (2 * m + 1) / 2 == m && (2 * m + 1) % 2 == 1;
  }

  lemma MaskOfOneMore(bits: nat)
    ensures Mask(0) == 0 && Pow2(0) == 1 && Mask(bits + 1) == 2 * Mask(bits) + 1 && Pow2(bits + 1) == 2 * Pow2(bits)
  {
  }

  /** The test against the mask keeps the low bits. */
  lemma {:induction false} MaskKeepsLowBits(fp: nat, bits: nat)
    ensures And(fp, Mask(bits)) == fp % Pow2(bits)
    decreases bits
  {
    if bits > 0 {
      hide And, Mask, Pow2;
      MaskKeepsLowBits(fp / 2, bits - 1);
      MaskOfOneMore(bits - 1);
      AndWithOdd(fp, Mask(bits - 1));
      HalfRemainder(fp, Pow2(bits - 1));
    }
  }

  lemma HalfRemainder(fp: nat, p: nat)
    requires p > 0
    ensures fp % (2 * p) == 2 * (fp / 2 % p) + fp % 2
  {
    var q, r := fp / 2 / p, fp / 2 % p;
    var rest := 2 * r + fp % 2;
    assert q * (2 * p) == 2 * (q * p);
    DivisionUnique(fp, 2 * p, q, rest);
  }

  /** A place is a cut point exactly if the fingerprint there has nothing in common with the mask: `fp & mask == 0`,
      the stricter mask up to the average size and the looser one after it. */
  lemma CutIsMasked(c: Cutter, data: seq<Byte>, i: nat)
    requires c.Valid() && i <= |data|
    ensures Cut(c, data, i) <==>
              i > c.sizes.min && And(Fingerprint(c, data, i), Mask(if i <= c.sizes.avg then c.strict else c.loose)) == 0
  {
    MaskKeepsLowBits(Fingerprint(c, data, i), if i <= c.sizes.avg then c.strict else c.loose);
  }

  /** The byte before `i` is a cut point. */
  predicate Cut(c: Cutter, data: seq<Byte>, i: nat)
    requires c.Valid() && i <= |data|
  {
    i > c.sizes.min && Zero(Fingerprint(c, data, i), if i <= c.sizes.avg then c.strict else c.loose)
  }

  function Limit(c: Cutter, data: seq<Byte>): nat {
    if |data| <= c.sizes.max then |data| else c.sizes.max
  }

  /** The chunk at the start of `data` has `n` bytes: it ends at the first cut point, at the largest
      size, or with the data. */
  ghost predicate IsBoundary(c: Cutter, data: seq<Byte>, n: nat)
    requires c.Valid()
  {
    if |data| <= c.sizes.min then n == |data|
    else
      && c.sizes.min <= n <= Limit(c, data)
      && (n < Limit(c, data) ==> Cut(c, data, n))
      && forall i | c.sizes.min < i < n :: !Cut(c, data, i)
  }

  lemma BoundaryIsUnique(c: Cutter, data: seq<Byte>, m: nat, n: nat)
    requires c.Valid() && IsBoundary(c, data, m) && IsBoundary(c, data, n)
    ensures m == n
  {
  }

  /** `boundary` */
  method Boundary(c: Cutter, data: seq<Byte>) returns (n: nat)
    requires c.Valid()
    ensures IsBoundary(c, data, n)
  {
    if |data| <= c.sizes.min {
      return |data|;
    }
    var limit := Limit(c, data);
    var normal := if limit <= c.sizes.avg then limit else c.sizes.avg;
    var fp: nat, i := 0, c.sizes.min;
    while i < normal
      invariant c.sizes.min <= i <= normal && fp == Fingerprint(c, data, i)
      invariant forall j | c.sizes.min < j <= i :: !Cut(c, data, j)
    {
      fp := Mix(c, fp, data[i]);
      if Zero(fp, c.strict) {
        return i + 1;
      }
      i := i + 1;
    }
    while i < limit
      invariant normal <= i <= limit && fp == Fingerprint(c, data, i)
      invariant forall j | c.sizes.min < j <= i :: !Cut(c, data, j)
    {
      fp := Mix(c, fp, data[i]);
      if Zero(fp, c.loose) {
        return i + 1;
      }
      i := i + 1;
    }
    n := i;
  }

  // ---------- the chunks of an input ----------

  function FirstCut(c: Cutter, data: seq<Byte>, i: nat): (n: nat)
    requires c.Valid() && c.sizes.min <= i <= Limit(c, data)
    requires forall j | c.sizes.min < j < i :: !Cut(c, data, j)
    ensures i <= n <= Limit(c, data) && (n < Limit(c, data) ==> Cut(c, data, n))
    ensures forall j | c.sizes.min < j < n :: !Cut(c, data, j)
    decreases Limit(c, data) - i
  {
    if i == Limit(c, data) || Cut(c, data, i) then i else FirstCut(c, data, i + 1)
  }

  function ChunkLength(c: Cutter, data: seq<Byte>): (n: nat)
    requires c.Valid()
    ensures IsBoundary(c, data, n) && n <= |data|
    ensures data != [] ==> n > 0
  {
    if |data| <= c.sizes.min then |data| else FirstCut(c, data, c.sizes.min)
  }

  function Chunks(c: Cutter, data: seq<Byte>): seq<seq<Byte>>
    requires c.Valid()
    decreases |data|
  {
    if data == [] then []
    else
      var n := ChunkLength(c, data);
      [data[..n]] + Chunks(c, data[n..])
  }

  function Concat(chunks: seq<seq<Byte>>): seq<Byte> {
    if chunks == [] then [] else chunks[0] + Concat(chunks[1..])
  }

  /** The chunks are the input, cut up. */
  lemma {:induction false} ChunksConcatenate(c: Cutter, data: seq<Byte>)
    requires c.Valid()
    ensures Concat(Chunks(c, data)) == data
    decreases |data|
  {
    hide IsBoundary, ChunkLength;
    if data != [] {
      var n := ChunkLength(c, data);
      ChunksConcatenate(c, data[n..]);
      assert Chunks(c, data)[1..] == Chunks(c, data[n..]);
    }
  }

  /** Every chunk fits the largest size, and every chunk but the last has at least the smallest. */
  lemma {:induction false} ChunkSizes(c: Cutter, data: seq<Byte>, k: nat)
    requires c.Valid() && k < |Chunks(c, data)|
    ensures 0 < |Chunks(c, data)[k]| <= c.sizes.max
    ensures k < |Chunks(c, data)| - 1 ==> |Chunks(c, data)[k]| >= c.sizes.min
    decreases |data|
  {
    var n := ChunkLength(c, data);
    if k > 0 {
      ChunkSizes(c, data[n..], k - 1);
    } else {
      assert Chunks(c, data)[0] == data[..n];
      assert n == |data| ==> Chunks(c, data[n..]) == [];
    }
  }

  lemma {:induction false} FingerprintOfPrefix(c: Cutter, data: seq<Byte>, more: seq<Byte>, i: nat)
    requires c.Valid() && i <= |data| && i <= |more| && data[..i] == more[..i]
    ensures Fingerprint(c, data, i) == Fingerprint(c, more, i)
    decreases i
  {
    if i > c.sizes.min {
      assert data[..i - 1] == data[..i][..i - 1] && more[..i - 1] == more[..i][..i - 1];
      FingerprintOfPrefix(c, data, more, i - 1);
      assert data[..i][i - 1] == more[..i][i - 1];
    }
  }

  /** A boundary depends on the next `max` bytes only: with that many at hand, what follows does not matter. */
  lemma BoundaryLooksAhead(c: Cutter, data: seq<Byte>, more: seq<Byte>, n: nat)
    requires c.Valid() && |data| >= c.sizes.max && IsBoundary(c, data, n)
    ensures IsBoundary(c, data + more, n)
  {
    forall i | c.sizes.min < i <= c.sizes.max ensures Cut(c, data, i) == Cut(c, data + more, i) {
      assert data[..i] == (data + more)[..i];
      FingerprintOfPrefix(c, data, data + more, i);
    }
  }

  // ---------- a cut point is decided by a few bytes ----------

  lemma {:induction false} ModOfMod(x: nat, k: nat, n: nat)
    requires k <= n
    ensures x % Pow2(n) % Pow2(k) == x % Pow2(k)
  {
    hide Pow2;
    Pow2Adds(k, n - k);
    var q, p, m := x / Pow2(n), Pow2(k), Pow2(n - k);
    assert x == (q * m) * p + x % Pow2(n) by { assert q * (p * m) == (q * m) * p; }
    RemainderUnique(x, x % Pow2(n), p, q * m);
  }

  lemma RemainderUnique(x: nat, y: nat, p: nat, q: int)
    requires p > 0 && x == q * p + y
    ensures x % p == y % p
  {
    var a, b := y / p, y % p;
    assert x == (q + a) * p + b;
    DivisionUnique(x, p, q + a, b);
  }

  lemma Distributes(a: int, b: int, p: int)
    ensures (a - b) * p == a * p - b * p
  {
  }

  lemma AtLeast(d: int, p: nat)
    requires d != 0
    ensures d > 0 ==> d * p >= p
    ensures d < 0 ==> d * p + p <= 0
  {
  }

  lemma DivisionUnique(x: int, p: nat, q: int, r: nat)
    requires p > 0 && x == q * p + r && r < p
    ensures x % p == r
  {
    var q', r' := x / p, x % p;
    assert x == q' * p + r' && 0 <= r' < p;
    Distributes(q, q', p);
    if q != q' {
      AtLeast(q - q', p);
    }
  }

  lemma DoubleAndAdd(x: nat, y: nat, g: nat, m: nat)
    requires m > 0 && x % m == y % m
    ensures (x * 2 + g) % (2 * m) == (y * 2 + g) % (2 * m)
  {
    var p, q, r := x / m, y / m, x % m;
    assert x == p * m + r && y == q * m + r;
    assert x * 2 + g == p * (2 * m) + (r * 2 + g);
    assert y * 2 + g == q * (2 * m) + (r * 2 + g);
    RemainderUnique(x * 2 + g, r * 2 + g, 2 * m, p);
    RemainderUnique(y * 2 + g, r * 2 + g, 2 * m, q);
  }

  lemma MixModulo(c: Cutter, x: nat, y: nat, b: Byte, k: nat)
    requires c.Valid() && 0 < k <= 64 && x % Pow2(k - 1) == y % Pow2(k - 1)
    ensures Mix(c, x, b) % Pow2(k) == Mix(c, y, b) % Pow2(k)
  {
    BigPowers();
    assert Pow2(k) == 2 * Pow2(k - 1);
    hide Pow2;
    ModOfMod(x * 2 + c.gear[b], k, 64);
    ModOfMod(y * 2 + c.gear[b], k, 64);
    DoubleAndAdd(x, y, c.gear[b], Pow2(k - 1));
  }

  /** The low `k` bits of the fingerprint come from the last `k` bytes, wherever they stand: the same
      bytes make the same cut points after an insertion or a deletion further up. */
  lemma {:induction false} FingerprintWindow(c: Cutter, a: seq<Byte>, i: nat, b: seq<Byte>, j: nat, k: nat)
    requires c.Valid() && k <= 64
    requires c.sizes.min + k <= i <= |a| && c.sizes.min + k <= j <= |b| && a[i - k..i] == b[j - k..j]
    ensures Fingerprint(c, a, i) % Pow2(k) == Fingerprint(c, b, j) % Pow2(k)
    decreases k
  {
    if k > 0 {
      assert a[i - k..i][k - 1] == a[i - 1] && b[j - k..j][k - 1] == b[j - 1];
      assert a[i - k..i][..k - 1] == a[i - 1 - (k - 1)..i - 1];
      assert b[j - k..j][..k - 1] == b[j - 1 - (k - 1)..j - 1];
      FingerprintWindow(c, a, i - 1, b, j - 1, k - 1);
      MixModulo(c, Fingerprint(c, a, i - 1), Fingerprint(c, b, j - 1), a[i - 1], k);
    }
  }

  /** Two places far enough from the start of their chunks, on the same side of the average size and
      after the same bytes, are both cut points or both not. */
  lemma CutIsLocal(c: Cutter, a: seq<Byte>, i: nat, b: seq<Byte>, j: nat)
    requires c.Valid() && i <= |a| && j <= |b| && (i <= c.sizes.avg <==> j <= c.sizes.avg)
    requires var k := if i <= c.sizes.avg then c.strict else c.loose;
             c.sizes.min + k < i && c.sizes.min + k < j && a[i - k..i] == b[j - k..j]
    ensures Cut(c, a, i) == Cut(c, b, j)
  {
    FingerprintWindow(c, a, i, b, j, if i <= c.sizes.avg then c.strict else c.loose);
  }

  // ---------- reading in pieces ----------

  datatype Answer = Deliver(n: nat) | Interrupt | Fail

  datatype ReadError = ReadError

  datatype ReadResult = Got(n: nat) | Interrupted | Failed

  /** How often reading is still to fail. */
  ghost function Fails(schedule: seq<Answer>): nat {
    multiset(schedule)[Fail]
  }

  /** A source of bytes that may answer with less than asked for, be interrupted, or fail, as its
      schedule says; the schedule over, it delivers what it is asked for. */
  class Reader {
    var rest: seq<Byte>
    var schedule: seq<Answer>

    constructor (input: seq<Byte>, schedule: seq<Answer>)
      ensures rest == input && this.schedule == schedule
    {
      rest, this.schedule := input, schedule;
    }

    /** `Read::read`: 0 only at the end of the input. */
    method Read(buf: array<Byte>, at: nat) returns (r: ReadResult)
      requires at < buf.Length
      modifies this, buf
      ensures r.Got? ==> r.n <= |old(rest)| && at + r.n <= buf.Length && (r.n == 0 ==> old(rest) == [])
      ensures r.Got? ==> buf[at..at + r.n] == old(rest)[..r.n] && rest == old(rest)[r.n..]
      ensures !r.Got? ==> rest == old(rest) && |schedule| < |old(schedule)|
      ensures |schedule| <= |old(schedule)| && (Fail in schedule ==> Fail in old(schedule))
      ensures r.Failed? ==> Fail in old(schedule)
      ensures Fails(schedule) == Fails(old(schedule)) - if r.Failed? then 1 else 0
      ensures buf[..at] == old(buf[..at])
    {
      var want := buf.Length - at;
      if schedule != [] {
        var answer := schedule[0];
        assert schedule == [schedule[0]] + schedule[1..];
        schedule := schedule[1..];
        match answer {
          case Interrupt => return Interrupted;
          case Fail => return Failed;
          case Deliver(k) =>
            if 0 < k < want {
              want := k;
            }
        }
      }
      var n := if want <= |rest| then want else |rest|;
      CopyInto(buf, at, rest[..n]);
      rest := rest[n..];
      r := Got(n);
    }
  }

  method CopyInto(buf: array<Byte>, at: nat, bytes: seq<Byte>)
    requires at + |bytes| <= buf.Length
    modifies buf
    ensures buf[at..at + |bytes|] == bytes && buf[..at] == old(buf[..at])
  {
    forall k | 0 <= k < |bytes| {
      buf[at + k] := bytes[k];
    }
    forall k | 0 <= k < |bytes| ensures buf[at..at + |bytes|][k] == bytes[k] {
      assert buf[at + k] == bytes[k];
    }
  }

  class State {
    const cutter: Cutter
    const buf: array<Byte>
    const reader: Reader
    var len: nat
    var cursor: nat
    var eof: bool

    ghost predicate Valid()
      reads this, reader
    {
      && cutter.Valid() && buf.Length == 2 * cutter.sizes.max
      && cursor <= len <= buf.Length && (eof ==> reader.rest == [])
    }

    /** The bytes that no chunk has taken yet. */
    ghost function Pending(): seq<Byte>
      requires Valid()
      reads this, reader, buf
    {
      buf[cursor..len] + reader.rest
    }

    constructor (cutter: Cutter, buf: array<Byte>, reader: Reader)
      requires cutter.Valid() && buf.Length == 2 * cutter.sizes.max
      ensures this.cutter == cutter && this.buf == buf && this.reader == reader
      ensures Valid() && Pending() == reader.rest
    {
      this.cutter, this.buf, this.reader := cutter, buf, reader;
      len, cursor, eof := 0, 0, false;
    }

    /** Moves the bytes not yet taken to the front of the buffer. */
    method Compact()
      requires Valid()
      modifies buf, `len, `cursor
      ensures Valid() && Pending() == old(Pending())
      ensures cursor == 0 && len == old(len) - old(cursor)
    {
      var remaining := len - cursor;
      ghost var kept := buf[cursor..len];
      var from := cursor;
      forall k | 0 <= k < remaining {
        buf[k] := buf[from + k];
      }
      assert buf[..remaining] == kept;
      cursor, len := 0, remaining;
    }

    /** After `fill` there are `max` bytes at hand, or all that is left. An error loses nothing. */
    method Fill() returns (ok: bool)
      requires Valid()
      modifies this, buf, reader
      ensures Valid() && Pending() == old(Pending())
      ensures ok ==> len - cursor >= cutter.sizes.max || (reader.rest == [] && cursor == 0)
      ensures !ok ==> Fail in old(reader.schedule)
      ensures (Fail in reader.schedule ==> Fail in old(reader.schedule))
      ensures Fails(reader.schedule) == Fails(old(reader.schedule)) - if ok then 0 else 1
    {
      if len - cursor >= cutter.sizes.max {
        return true;
      }
      Compact();
      if eof {
        return true;
      }
      while len < buf.Length
        invariant Valid() && cursor == 0 && !eof && Pending() == old(Pending())
        invariant Fail in reader.schedule ==> Fail in old(reader.schedule)
        invariant Fails(reader.schedule) == Fails(old(reader.schedule))
        decreases |reader.schedule|, buf.Length - len
      {
        ghost var left, space := |reader.schedule|, buf.Length - len;
        var r := ReadMore();
        if r.Failed? {
          return false;
        }
        if eof {
          break;
        }
        assert |reader.schedule| < left || buf.Length - len < space;
      }
      ok := true;
    }

    /** One `read` into the free part of the buffer. */
    method ReadMore() returns (r: ReadResult)
      requires Valid() && cursor == 0 && len < buf.Length && !eof
      modifies this, buf, reader
      ensures Valid() && cursor == 0 && Pending() == old(Pending())
      ensures |reader.schedule| <= |old(reader.schedule)|
      ensures !eof && len == old(len) ==> |reader.schedule| < |old(reader.schedule)|
      ensures old(len) <= len && (eof ==> r == Got(0))
      ensures Fail in reader.schedule || r.Failed? ==> Fail in old(reader.schedule)
      ensures Fails(reader.schedule) == Fails(old(reader.schedule)) - if r.Failed? then 1 else 0
    {
      ghost var had, rest := buf[..len], reader.rest;
      r := reader.Read(buf, len);
      if r.Got? {
        assert buf[..len + r.n] == had + rest[..r.n];
        assert rest == rest[..r.n] + rest[r.n..];
        eof := r.n == 0;
        len := len + r.n;
      } else {
        assert buf[..len] == had;
      }
    }

    /** `next_chunk`: the first chunk of the bytes not yet taken, however the reader hands them out. */
    method NextChunk() returns (r: Result<Option<seq<Byte>>, ReadError>)
      requires Valid()
      modifies this, buf, reader
      ensures Valid() && (Fail in reader.schedule ==> Fail in old(reader.schedule))
      ensures Fails(reader.schedule) == Fails(old(reader.schedule)) - if r.Err? then 1 else 0
      ensures match r {
                case Err(_) => Pending() == old(Pending()) && Fail in old(reader.schedule)
                case Ok(None) => old(Pending()) == [] && Pending() == []
                case Ok(Some(chunk)) =>
                  && old(Pending()) != [] && chunk == old(Pending())[..ChunkLength(cutter, old(Pending()))]
                  && Pending() == old(Pending())[ChunkLength(cutter, old(Pending()))..]
              }
    {
      hide IsBoundary, ChunkLength;
      ghost var before := Pending();
      var ok := Fill();
      if !ok {
        return Err(ReadError);
      }
      if len == 0 {
        return Ok(None);
      }
      var data := buf[cursor..len];
      var length := Boundary(cutter, data);
      assert before == data + reader.rest;
      assert data != [];
      BoundaryOfBuffer(cutter, data, reader.rest, length);
      cursor := cursor + length;
      assert buf[cursor..len] == data[length..];
      r := Ok(Some(data[..length]));
    }
  }

  lemma BoundaryOfBuffer(c: Cutter, data: seq<Byte>, rest: seq<Byte>, n: nat)
    requires c.Valid() && IsBoundary(c, data, n) && (|data| >= c.sizes.max || rest == [])
    ensures n <= |data| && n == ChunkLength(c, data + rest)
  {
    if rest == [] {
      assert data + rest == data;
      BoundaryIsUnique(c, data, n, ChunkLength(c, data));
    } else {
      BoundaryLooksAhead(c, data, rest, n);
      BoundaryIsUnique(c, data + rest, n, ChunkLength(c, data + rest));
    }
  }

  lemma ChunksStep(c: Cutter, data: seq<Byte>, chunk: seq<Byte>, rest: seq<Byte>, before: seq<seq<Byte>>)
    requires c.Valid() && data != [] && chunk == data[..ChunkLength(c, data)] && rest == data[ChunkLength(c, data)..]
    ensures before + Chunks(c, data) == (before + [chunk]) + Chunks(c, rest) && |rest| < |data|
  {
    hide ChunkLength, IsBoundary;
    assert ChunkLength(c, data) > 0;
    assert Chunks(c, data) == [chunk] + Chunks(c, rest);
    OneByOne(before, chunk, Chunks(c, rest));
  }

  lemma OneByOne(before: seq<seq<Byte>>, chunk: seq<Byte>, rest: seq<seq<Byte>>)
    ensures before + ([chunk] + rest) == (before + [chunk]) + rest
  {
  }

  /** All chunks of an input; an error is reported exactly if the reader met one. With no read error they are a function of the bytes and the parameters
      alone: the schedule of short and interrupted reads does not show. */
  method ChunkAll(c: Cutter, reader: Reader) returns (chunks: seq<seq<Byte>>, failed: bool)
    requires c.Valid()
    modifies reader
    ensures !failed ==> chunks == Chunks(c, old(reader.rest))
    ensures failed ==> chunks <= Chunks(c, old(reader.rest)) && Fail in old(reader.schedule)
    ensures Fails(reader.schedule) == Fails(old(reader.schedule)) - if failed then 1 else 0
  {
    hide IsBoundary, ChunkLength, Chunks, Fails;
    var buf := new Byte[2 * c.sizes.max];
    var state := new State(c, buf, reader);
    ghost var input := reader.rest;
    chunks, failed := [], false;
    while true
      invariant state.Valid() && fresh(state) && fresh(buf) && state.buf == buf && state.reader == reader
      invariant state.cutter == c && chunks + Chunks(c, state.Pending()) == Chunks(c, input)
      invariant Fail in reader.schedule ==> Fail in old(reader.schedule)
      invariant Fails(reader.schedule) == Fails(old(reader.schedule))
      decreases |state.Pending()|
    {
      ghost var pending := state.Pending();
      var r := state.NextChunk();
      if r.Err? {
        return chunks, true;
      }
      if r.value.None? {
        NoChunks(c);
        return;
      }
      ChunksStep(c, pending, r.value.value, state.Pending(), chunks);
      chunks := chunks + [r.value.value];
    }
  }

  lemma NoChunks(c: Cutter)
    requires c.Valid()
    ensures Chunks(c, []) == []
  {
  }
}
