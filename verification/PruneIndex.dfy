/** Prune's chunk index: every (chunk, holder) pair in one sorted table, from which
  one linear merge picks the canonical pack of each referenced chunk (prune.rs). */
module PruneIndexing {
  import opened Wrappers
  import opened ChunkTable

  // ---------- sorting and dropping duplicates ----------

  predicate RecordLeq(a: Record, b: Record) {
    if a.id != b.id then a.id < b.id
    else if a.location.pack != b.location.pack then a.location.pack < b.location.pack
    else a.location.offset <= b.location.offset
  }

  predicate SameHolder(a: Record, b: Record) {
    a.id == b.id && a.location.pack == b.location.pack
  }

  ghost predicate Sorted(rs: seq<Record>) {
    forall i, j | 0 <= i < j < |rs| :: RecordLeq(rs[i], rs[j])
  }

  /** Sorted, with one record for each (chunk, holder). */
  ghost predicate Table(rs: seq<Record>) {
    Sorted(rs) && forall i, j | 0 <= i < j < |rs| :: !SameHolder(rs[i], rs[j])
  }

  lemma SortedCons(h: Record, rs: seq<Record>)
    requires Sorted(rs) && forall x | x in rs :: RecordLeq(h, x)
    ensures Sorted([h] + rs)
  {
    var out := [h] + rs;
    forall i, j | 0 <= i < j < |out| ensures RecordLeq(out[i], out[j]) {
      if i == 0 { assert out[j] in rs; }
    }
  }

  function Insert(r: Record, rs: seq<Record>): (out: seq<Record>)
    ensures multiset(out) == multiset{r} + multiset(rs)
  {
    if rs == [] then [r]
    else
      assert rs == [rs[0]] + rs[1..];
      if RecordLeq(r, rs[0]) then [r] + rs else [rs[0]] + Insert(r, rs[1..])
  }

  lemma {:induction false} InsertKeepsSorted(r: Record, rs: seq<Record>)
    requires Sorted(rs)
    ensures Sorted(Insert(r, rs))
  {
    if rs != [] {
      if RecordLeq(r, rs[0]) {
        forall x | x in rs ensures RecordLeq(r, x) {
          var j :| 0 <= j < |rs| && rs[j] == x;
          assert j == 0 || RecordLeq(rs[0], rs[j]);
        }
        SortedCons(r, rs);
      } else {
        var rest := Insert(r, rs[1..]);
        InsertKeepsSorted(r, rs[1..]);
        forall x | x in rest ensures RecordLeq(rs[0], x) {
          assert x in multiset(rest);
          assert x == r || x in rs[1..];
        }
        SortedCons(rs[0], rest);
      }
    }
  }

  /** `sort_unstable_by` */
  function SortRecords(rs: seq<Record>): (out: seq<Record>)
    ensures Sorted(out) && multiset(out) == multiset(rs)
  {
    if rs == [] then []
    else
      assert rs == [rs[0]] + rs[1..];
      InsertKeepsSorted(rs[0], SortRecords(rs[1..]));
      Insert(rs[0], SortRecords(rs[1..]))
  }

  /** Some record for the same holder, at the same or a smaller offset, is in `out`. */
  ghost predicate Represented(out: seq<Record>, r: Record) {
    exists k :: k in out && SameHolder(k, r) && RecordLeq(k, r)
  }

  lemma TableSnoc(out: seq<Record>, r: Record)
    requires Table(out) && out != [] && RecordLeq(out[|out| - 1], r) && !SameHolder(out[|out| - 1], r)
    ensures Table(out + [r])
  {
    forall i | 0 <= i < |out| ensures RecordLeq(out[i], r) && !SameHolder(out[i], r) {
      if i < |out| - 1 {
        assert RecordLeq(out[i], out[|out| - 1]);
      }
    }
  }

  lemma RepresentedSnoc(out: seq<Record>, x: Record, r: Record)
    requires Represented(out, r)
    ensures Represented(out + [x], r)
  {
    var k :| k in out && SameHolder(k, r) && RecordLeq(k, r);
    assert k in out + [x];
  }

  /** `out` is `rs[..i]` without its duplicates. */
  ghost predicate Dropped(rs: seq<Record>, i: nat, out: seq<Record>)
    requires i <= |rs|
  {
    && Table(out)
    && (i > 0 <==> out != [])
    && (out != [] ==> exists j :: 0 <= j < i && rs[j] == out[|out| - 1])
    && (forall k | 0 <= k < |out| :: out[k] in rs)
    && (forall j | 0 <= j < i :: Represented(out, rs[j]))
  }

  lemma DroppedSame(rs: seq<Record>, i: nat, out: seq<Record>)
    requires i < |rs| && Dropped(rs, i, out) && out != []
    requires SameHolder(out[|out| - 1], rs[i]) && RecordLeq(out[|out| - 1], rs[i])
    ensures Dropped(rs, i + 1, out)
  {
    hide Table, SameHolder, RecordLeq;
    assert out[|out| - 1] in out && Represented(out, rs[i]);
  }

  lemma DroppedOther(rs: seq<Record>, i: nat, out: seq<Record>)
    requires i < |rs| && Dropped(rs, i, out) && Table(out + [rs[i]]) && Represented(out + [rs[i]], rs[i])
    ensures Dropped(rs, i + 1, out + [rs[i]])
  {
    hide Table, Represented;
    forall j | 0 <= j < i + 1 ensures Represented(out + [rs[i]], rs[j]) {
      if j < i {
        RepresentedSnoc(out, rs[i], rs[j]);
      }
    }
    forall k | 0 <= k < |out + [rs[i]]| ensures (out + [rs[i]])[k] in rs {
      assert k < |out| ==> out[k] in rs;
    }
  }

  lemma DroppedNext(rs: seq<Record>, i: nat, out: seq<Record>)
    requires Sorted(rs) && i < |rs| && Dropped(rs, i, out)
    ensures Dropped(rs, i + 1,
                    if out == [] || !SameHolder(out[|out| - 1], rs[i]) then out + [rs[i]] else out)
  {
    hide Represented, SameHolder, RecordLeq;
    if out != [] {
      assert RecordLeq(out[|out| - 1], rs[i]);
    }
    if out != [] && SameHolder(out[|out| - 1], rs[i]) {
      DroppedSame(rs, i, out);
    } else {
      if out == [] {
        assert Table(out + [rs[i]]);
      } else {
        TableSnoc(out, rs[i]);
      }
      LastIsRepresented(out, rs[i]);
      DroppedOther(rs, i, out);
    }
  }

  lemma LastIsRepresented(out: seq<Record>, r: Record)
    ensures Represented(out + [r], r)
  {
    assert r in out + [r];
  }

  /** `dedup_by`: of neighbours for the same holder, the first stays. */
  method DropDuplicates(rs: seq<Record>) returns (out: seq<Record>)
    requires Sorted(rs)
    ensures Table(out)
    ensures forall r | r in out :: r in rs
    ensures forall r | r in rs :: Represented(out, r)
  {
    hide Represented, SameHolder, RecordLeq;
    out := [];
    for i := 0 to |rs|
      invariant Dropped(rs, i, out)
    {
      DroppedNext(rs, i, out);
      if out == [] || !SameHolder(out[|out| - 1], rs[i]) {
        out := out + [rs[i]];
      }
    }
    forall r | r in rs ensures Represented(out, r) {
      var j :| 0 <= j < |rs| && rs[j] == r;
    }
  }

  ghost predicate Increasing(ids: seq<Id>) {
    forall i, j | 0 <= i < j < |ids| :: ids[i] < ids[j]
  }

  function InsertId(x: Id, ids: seq<Id>): (out: seq<Id>)
    requires Increasing(ids)
    ensures Increasing(out) && forall y :: y in out <==> y == x || y in ids
  {
    if ids == [] then [x]
    else if x < ids[0] then [x] + ids
    else if x == ids[0] then ids
    else
      var rest := InsertId(x, ids[1..]);
      assert ids == [ids[0]] + ids[1..];
      assert forall j | 0 <= j < |rest| :: rest[j] in rest && ids[0] < rest[j];
      [ids[0]] + rest
  }

  /** `sort_unstable` and `dedup` on the referenced chunk ids. */
  function SortedIds(ids: seq<Id>): (out: seq<Id>)
    ensures Increasing(out) && forall y :: y in out <==> y in ids
  {
    if ids == [] then []
    else
      assert ids == [ids[0]] + ids[1..];
      InsertId(ids[0], SortedIds(ids[1..]))
  }

  // ---------- what the merge has to compute ----------

  /** The canonical pack of `c` among the holders that are in storage. */
  ghost function Best(rs: seq<Record>, marked: set<Id>, gone: set<Id>, c: Id): Option<Id> {
    if Holders(rs, gone, c) == {} then None else Some(Canonical(marked, Holders(rs, gone, c)))
  }

  /** The sealed length of `c` in `p`: the table has one record for the two. */
  ghost function LengthIn(rs: seq<Record>, c: Id, p: Id): nat {
    if exists r :: r in rs && r.id == c && r.location.pack == p then
      var r :| r in rs && r.id == c && r.location.pack == p;
      r.location.length
    else 0
  }

  /** The bytes of the chunks among `cs` whose canonical pack is `p`: each chunk once. */
  ghost function LiveBytes(rs: seq<Record>, marked: set<Id>, gone: set<Id>, cs: seq<Id>, p: Id): nat {
    if cs == [] then 0
    else
      var c := cs[|cs| - 1];
      LiveBytes(rs, marked, gone, cs[..|cs| - 1], p)
      + (if Best(rs, marked, gone, c) == Some(p) then LengthIn(rs, c, p) else 0)
  }

  lemma LengthOfRecord(rs: seq<Record>, j: nat)
    requires Table(rs) && j < |rs|
    ensures LengthIn(rs, rs[j].id, rs[j].location.pack) == rs[j].location.length
  {
    var c, p := rs[j].id, rs[j].location.pack;
    assert rs[j] in rs && rs[j].id == c && rs[j].location.pack == p;
    forall r | r in rs && r.id == c && r.location.pack == p ensures r == rs[j] {
      var i :| 0 <= i < |rs| && rs[i] == r;
      assert SameHolder(rs[i], rs[j]) && SameHolder(rs[j], rs[i]);
    }
  }

  lemma SameElements<T>(a: seq<T>, b: seq<T>)
    requires multiset(a) == multiset(b)
    ensures forall x :: x in a <==> x in b
  {
    forall x ensures x in a <==> x in b {
      assert x in multiset(a) <==> x in multiset(b);
    }
  }

  /** `needed` holds the canonical packs of the chunks `cs`. */
  ghost predicate Chosen(rs: seq<Record>, marked: set<Id>, gone: set<Id>, cs: seq<Id>, needed: set<Id>) {
    && (forall c | c in cs :: Best(rs, marked, gone, c).Some? && Best(rs, marked, gone, c).value in needed)
    && (forall p | p in needed :: exists c :: c in cs && Best(rs, marked, gone, c) == Some(p))
  }

  lemma ChosenSnoc(rs: seq<Record>, marked: set<Id>, gone: set<Id>, cs: seq<Id>, needed: set<Id>, c: Id, p: Id)
    requires Chosen(rs, marked, gone, cs, needed) && Best(rs, marked, gone, c) == Some(p)
    ensures Chosen(rs, marked, gone, cs + [c], needed + {p})
  {
    forall q | q in needed + {p} ensures exists x :: x in cs + [c] && Best(rs, marked, gone, x) == Some(q) {
      var x := c;
      if q != p {
        x :| x in cs && Best(rs, marked, gone, x) == Some(q);
      }
      assert x in cs + [c];
    }
  }

  function AddLive(live: map<Id, nat>, p: Id, len: nat): map<Id, nat> {
    live[p := (if p in live then live[p] else 0) + len]
  }

  /** The table the merge builds, chunk by chunk. */
  ghost function LiveTable(rs: seq<Record>, marked: set<Id>, gone: set<Id>, cs: seq<Id>): map<Id, nat> {
    if cs == [] then map[]
    else
      var c, before := cs[|cs| - 1], LiveTable(rs, marked, gone, cs[..|cs| - 1]);
      match Best(rs, marked, gone, c)
      case None => before
      case Some(p) => AddLive(before, p, LengthIn(rs, c, p))
  }

  /** ... holds for each pack the bytes of the chunks it is canonical for, each counted once. */
  lemma {:induction false} LiveTableSums(rs: seq<Record>, marked: set<Id>, gone: set<Id>, cs: seq<Id>, p: Id)
    ensures var live := LiveTable(rs, marked, gone, cs);
            && (p in live <==> exists c :: c in cs && Best(rs, marked, gone, c) == Some(p))
            && LiveBytes(rs, marked, gone, cs, p) == if p in live then live[p] else 0
    decreases |cs|
  {
    if cs != [] {
      LiveTableSums(rs, marked, gone, cs[..|cs| - 1], p);
      assert cs == cs[..|cs| - 1] + [cs[|cs| - 1]];
    }
  }

  lemma LiveTableSnoc(rs: seq<Record>, marked: set<Id>, gone: set<Id>, cs: seq<Id>, c: Id, p: Id)
    requires Best(rs, marked, gone, c) == Some(p)
    ensures LiveTable(rs, marked, gone, cs + [c]) == AddLive(LiveTable(rs, marked, gone, cs), p, LengthIn(rs, c, p))
  {
    var cs' := cs + [c];
    assert cs'[..|cs'| - 1] == cs && cs'[|cs'| - 1] == c;
  }

  /** Flagged are the records of the chunks `cs` whose pack is in storage. */
  ghost predicate Flagged(rs: seq<Record>, flags: seq<bool>, gone: set<Id>, cs: seq<Id>)
    requires |flags| == |rs|
  {
    forall j | 0 <= j < |rs| :: flags[j] <==> rs[j].id in cs && rs[j].location.pack !in gone
  }

  /** The index of the first record whose chunk is not below `id`. */
  ghost predicate IsLowerBound(rs: seq<Record>, id: Id, at: nat) {
    && at <= |rs|
    && (forall j | 0 <= j < at :: rs[j].id < id)
    && (forall j | at <= j < |rs| :: id <= rs[j].id)
  }

  lemma SortedByChunk(rs: seq<Record>)
    requires Sorted(rs)
    ensures forall i, j | 0 <= i <= j < |rs| :: rs[i].id <= rs[j].id
  {
    forall i, j | 0 <= i <= j < |rs| ensures rs[i].id <= rs[j].id {
      if i < j { assert RecordLeq(rs[i], rs[j]); }
    }
  }

  class PruneIndex {
    var records: seq<Record>
    /** Parallel to `records`: the chunk is referenced and this holder is in storage. */
    var referenced: seq<bool>

    ghost predicate Valid()
      reads this
    {
      Table(records) && |referenced| == |records|
    }

    constructor (input: seq<Record>)
      ensures Valid()
      ensures forall r | r in records :: r in input
      ensures forall r | r in input :: Represented(records, r)
      ensures forall i | 0 <= i < |referenced| :: !referenced[i]
    {
      var sorted := SortRecords(input);
      SameElements(sorted, input);
      var rs := DropDuplicates(sorted);
      records := rs;
      referenced := seq(|rs|, _ => false);
    }

    /** `partition_point`, as a binary search. */
    method LowerBound(id: Id) returns (at: nat)
      requires Valid()
      ensures IsLowerBound(records, id, at)
    {
      SortedByChunk(records);
      var lo, hi := 0, |records|;
      while lo < hi
        invariant 0 <= lo <= hi <= |records|
        invariant forall j | 0 <= j < lo :: records[j].id < id
        invariant forall j | hi <= j < |records| :: id <= records[j].id
      {
        var mid := lo + (hi - lo) / 2;
        if records[mid].id < id { lo := mid + 1; } else { hi := mid; }
      }
      at := lo;
    }

    /** The range of records for one chunk. */
    method Group(id: Id) returns (lo: nat, hi: nat)
      requires Valid()
      ensures lo <= hi <= |records|
      ensures forall j | 0 <= j < |records| :: lo <= j < hi <==> records[j].id == id
    {
      SortedByChunk(records);
      lo := LowerBound(id);
      hi := LowerBound(id + 1);
      assert hi < |records| ==> id < records[hi].id;
    }

    method IsReferenced(id: Id) returns (yes: bool)
      requires Valid()
      ensures yes <==> exists j :: 0 <= j < |records| && records[j].id == id && referenced[j]
    {
      var lo, hi := Group(id);
      yes := exists j :: lo <= j < hi && referenced[j];
    }

    method HeldBy(id: Id, packs: set<Id>) returns (yes: bool)
      requires Valid()
      ensures yes <==> exists r :: r in records && r.id == id && r.location.pack in packs
    {
      var lo, hi := Group(id);
      yes := exists j :: lo <= j < hi && records[j].location.pack in packs;
      if exists r :: r in records && r.id == id && r.location.pack in packs {
        var r :| r in records && r.id == id && r.location.pack in packs;
        var j :| 0 <= j < |records| && records[j] == r;
        assert lo <= j < hi;
      }
    }

    /** The cursor of the merge moves to the first record of `c`. */
    method Advance(from: nat, c: Id) returns (pos: nat)
      requires Valid() && from <= |records| && forall j | 0 <= j < from :: records[j].id < c
      ensures IsLowerBound(records, c, pos)
    {
      SortedByChunk(records);
      pos := from;
      while pos < |records| && records[pos].id < c
        invariant from <= pos <= |records|
        invariant forall j | 0 <= j < pos :: records[j].id < c
      {
        pos := pos + 1;
      }
    }

    /** One chunk's records: flag the holders in storage and find the best of them. */
    method ScanGroup(pos: nat, c: Id, marked: set<Id>, phantoms: set<Id>) returns (best: Option<(Id, nat)>)
      requires Valid() && IsLowerBound(records, c, pos)
      modifies `referenced
      ensures Valid()
      ensures forall j | 0 <= j < |records| :: referenced[j] ==
                (old(referenced)[j] || (records[j].id == c && records[j].location.pack !in phantoms))
      ensures best.None? <==> Holders(records, phantoms, c) == {}
      ensures best.Some? ==> Best(records, marked, phantoms, c) == Some(best.value.0)
      ensures best.Some? ==> best.value.1 == LengthIn(records, c, best.value.0)
    {
      hide Holders, Best, LengthIn, IsCanonical;
      SortedByChunk(records);
      best := None;
      var i := pos;
      ghost var at: nat := pos;
      while i < |records| && records[i].id == c
        invariant pos <= i <= |records| && |referenced| == |records|
        invariant forall j | pos <= j < i :: records[j].id == c
        invariant forall j | 0 <= j < |records| :: referenced[j] ==
                    (old(referenced)[j] || (pos <= j < i && records[j].location.pack !in phantoms))
        invariant best.None? <==> forall j | pos <= j < i :: records[j].location.pack in phantoms
        invariant best.Some? ==> pos <= at < i && records[at].location.pack == best.value.0
        invariant best.Some? ==> best.value.0 !in phantoms && records[at].location.length == best.value.1
        invariant best.Some? ==> forall j | pos <= j < i && records[j].location.pack !in phantoms ::
                    RankLeq(marked, best.value.0, records[j].location.pack)
      {
        var pack := records[i].location.pack;
        if pack !in phantoms {
          if best.None? || (pack != best.value.0 && RankLeq(marked, pack, best.value.0)) {
            best, at := Some((pack, records[i].location.length)), i;
          }
          referenced := referenced[i := true];
        }
        i := i + 1;
      }
      GroupIsAll(records, c, pos, i);
      BestOfGroup(records, c, marked, phantoms, pos, i, best, at);
    }

    method MergeOne(from: nat, c: Id, marked: set<Id>, phantoms: set<Id>, ghost done: seq<Id>)
      returns (pos: nat, best: Option<(Id, nat)>)
      requires Valid() && from <= |records| && forall j | 0 <= j < from :: records[j].id < c
      requires Flagged(records, referenced, phantoms, done)
      modifies `referenced
      ensures Valid() && pos <= |records| && forall j | 0 <= j < pos :: records[j].id < c
      ensures Flagged(records, referenced, phantoms, done + [c])
      ensures Best(records, marked, phantoms, c) == if best.None? then None else Some(best.value.0)
      ensures best.Some? ==> best.value.1 == LengthIn(records, c, best.value.0)
    {
      hide Table, LengthIn, Holders, IsCanonical;
      pos := Advance(from, c);
      best := ScanGroup(pos, c, marked, phantoms);
    }

    /** The linear merge over the sorted, distinct referenced ids. */
    method MergeAll(ids: seq<Id>, marked: set<Id>, phantoms: set<Id>)
      returns (missing: Option<Id>, needed: set<Id>, live: map<Id, nat>)
      requires Valid() && Increasing(ids) && Flagged(records, referenced, phantoms, [])
      modifies `referenced
      ensures Valid()
      ensures missing.Some? ==> missing.value in ids && Best(records, marked, phantoms, missing.value) == None
      ensures missing.None? ==> Chosen(records, marked, phantoms, ids, needed)
      ensures missing.None? ==> live == LiveTable(records, marked, phantoms, ids)
      ensures missing.None? ==> Flagged(records, referenced, phantoms, ids)
    {
      hide Chosen, LiveTable, Flagged, Best, LengthIn, Table;
      missing, needed, live := None, {}, map[];
      assert ids[..|ids|] == ids;
      assert Chosen(records, marked, phantoms, ids[..0], {}) && LiveTable(records, marked, phantoms, ids[..0]) == map[] by {
        NothingChosen(records, marked, phantoms);
      }
      var pos: nat := 0;
      for k := 0 to |ids|
        invariant Valid() && 0 <= pos <= |records| && missing == None
        invariant forall j | 0 <= j < pos && k < |ids| :: records[j].id < ids[k]
        invariant Chosen(records, marked, phantoms, ids[..k], needed)
        invariant live == LiveTable(records, marked, phantoms, ids[..k])
        invariant Flagged(records, referenced, phantoms, ids[..k])
      {
        var c := ids[k];
        assert ids[..k + 1] == ids[..k] + [c];
        var best;
        pos, best := MergeOne(pos, c, marked, phantoms, ids[..k]);
        if best.None? {
          missing := Some(c);
          return;
        }
        var (pack, len) := best.value;
        assert Chosen(records, marked, phantoms, ids[..k + 1], needed + {pack}) by {
          ChosenSnoc(records, marked, phantoms, ids[..k], needed, c, pack);
        }
        assert LiveTable(records, marked, phantoms, ids[..k + 1]) == AddLive(live, pack, len) by {
          LiveTableSnoc(records, marked, phantoms, ids[..k], c, pack);
        }
        needed := needed + {pack};
        live := AddLive(live, pack, len);
      }
    }

    /** Flags the holders of the referenced chunks and picks a canonical pack for each chunk;
        `Err` names a referenced chunk that no stored pack holds. */
    method MarkAndCanonicalize(refs: seq<Id>, marked: set<Id>, phantoms: set<Id>)
      returns (r: Result<(set<Id>, map<Id, nat>), Id>)
      requires Valid() && forall j | 0 <= j < |referenced| :: !referenced[j]
      modifies `referenced
      ensures Valid()
      ensures r.Err? ==> r.error in refs && Best(records, marked, phantoms, r.error) == None
      ensures r.Ok? ==> Chosen(records, marked, phantoms, refs, r.value.0)
      ensures r.Ok? ==> r.value.1 == LiveTable(records, marked, phantoms, SortedIds(refs))
      ensures r.Ok? ==> Flagged(records, referenced, phantoms, refs)
    {
      var ids := SortedIds(refs);
      var missing, needed, live := MergeAll(ids, marked, phantoms);
      r := if missing.Some? then Err(missing.value) else Ok((needed, live));
    }
  }

  /** What the scan of a chunk's records `pos..end` found is the canonical holder. */
  lemma BestOfGroup(rs: seq<Record>, c: Id, marked: set<Id>, phantoms: set<Id>, pos: nat, end: nat,
                    best: Option<(Id, nat)>, at: nat)
    requires Table(rs) && pos <= end <= |rs| && forall j | 0 <= j < |rs| :: rs[j].id == c <==> pos <= j < end
    requires best.None? <==> forall j | pos <= j < end :: rs[j].location.pack in phantoms
    requires best.Some? ==> pos <= at < end && rs[at].location.pack == best.value.0 && rs[at].location.length == best.value.1
    requires best.Some? ==> best.value.0 !in phantoms
    requires best.Some? ==> forall j | pos <= j < end && rs[j].location.pack !in phantoms ::
               RankLeq(marked, best.value.0, rs[j].location.pack)
    ensures best.None? <==> Holders(rs, phantoms, c) == {}
    ensures best.Some? ==> Best(rs, marked, phantoms, c) == Some(best.value.0) && best.value.1 == LengthIn(rs, c, best.value.0)
  {
    hide Table, RankLeq, LengthIn;
    var hs := Holders(rs, phantoms, c);
    forall p ensures p in hs <==> exists j :: pos <= j < end && rs[j].location.pack == p && p !in phantoms {
      if p in hs {
        var r :| r in rs && r.id == c && r.location.pack == p;
        var j :| 0 <= j < |rs| && rs[j] == r;
      }
    }
    if best.Some? {
      LengthOfRecord(rs, at);
      assert IsCanonical(marked, hs, best.value.0);
      CanonicalIsUnique(marked, hs, best.value.0, Canonical(marked, hs));
    }
  }

  lemma NothingChosen(rs: seq<Record>, marked: set<Id>, phantoms: set<Id>)
    ensures Chosen(rs, marked, phantoms, [], {}) && LiveTable(rs, marked, phantoms, []) == map[]
  {
  }

  lemma GroupIsAll(rs: seq<Record>, c: Id, pos: nat, end: nat)
    requires IsLowerBound(rs, c, pos) && pos <= end <= |rs|
    requires forall j | pos <= j < end :: rs[j].id == c
    requires end < |rs| ==> rs[end].id != c
    requires forall i, j | 0 <= i <= j < |rs| :: rs[i].id <= rs[j].id
    ensures forall j | 0 <= j < |rs| :: rs[j].id == c <==> pos <= j < end
  {
  }
}
