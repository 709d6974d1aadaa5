/** The index a backup deduplicates against: an overlay in memory above a sorted
  table (index.rs). */
module ChunkIndexing {
  import opened Wrappers
  import opened ChunkTable

  /** The placeholder name of a pack that is still open. */
  const PENDING: Id := 0

  // ---------- the sorted table ----------

  ghost function Lookup(t: seq<Record>, id: Id): Option<Location> {
    if id in MapOf(t) then Some(MapOf(t)[id]) else None
  }

  /** `DiskTable::get`: binary search, one record at a time. */
  method TableGet(t: seq<Record>, id: Id) returns (found: Option<Location>)
    requires StrictlySorted(t)
    ensures found == Lookup(t, id)
  {
    var lo, hi := 0, |t|;
    while lo < hi
      invariant 0 <= lo <= hi <= |t|
      invariant forall j | 0 <= j < lo :: t[j].id < id
      invariant forall j | hi <= j < |t| :: id < t[j].id
    {
      var mid := lo + (hi - lo) / 2;
      if t[mid].id < id {
        lo := mid + 1;
      } else if t[mid].id > id {
        hi := mid;
      } else {
        MapOfMember(t, mid);
        return Some(t[mid].location);
      }
    }
    if id in MapOf(t) {
      MapOfKey(t, id);
    }
    found := None;
  }

  // ---------- merging packs by rank ----------

  type Overlay = map<Id, Location>

  /** One record meets the overlay: the location of smaller rank stays, the first of equals. */
  function Absorb(ov: Overlay, r: Record, marked: set<Id>): Overlay {
    if r.id in ov && RankLeq(marked, ov[r.id].pack, r.location.pack) then ov
    else ov[r.id := r.location]
  }

  function AbsorbAll(ov: Overlay, rs: seq<Record>, marked: set<Id>): Overlay {
    if rs == [] then ov
    else Absorb(AbsorbAll(ov, rs[..|rs| - 1], marked), rs[|rs| - 1], marked)
  }

  lemma {:induction false} AbsorbConcat(ov: Overlay, a: seq<Record>, b: seq<Record>, marked: set<Id>)
    ensures AbsorbAll(ov, a + b, marked) == AbsorbAll(AbsorbAll(ov, a, marked), b, marked)
    decreases |b|
  {
    if b == [] {
      assert a + b == a;
    } else {
      assert (a + b)[..|a + b| - 1] == a + b[..|b| - 1];
      AbsorbConcat(ov, a, b[..|b| - 1], marked);
    }
  }

  /** The merged overlay knows exactly the chunks that have a holder, and places each in its
      canonical pack, at a recorded location. */
  lemma {:induction false} AbsorbIsCanonical(rs: seq<Record>, marked: set<Id>, c: Id)
    ensures var ov := AbsorbAll(map[], rs, marked);
            && (c in ov <==> Holders(rs, {}, c) != {})
            && (c in ov ==> Record(c, ov[c]) in rs && IsCanonical(marked, Holders(rs, {}, c), ov[c].pack))
    decreases |rs|
  {
    if rs != [] {
      var before, r := rs[..|rs| - 1], rs[|rs| - 1];
      AbsorbIsCanonical(before, marked, c);
      assert rs == before + [r];
      var hs, hs' := Holders(before, {}, c), Holders(rs, {}, c);
      assert hs' == if r.id == c then hs + {r.location.pack} else hs;
    }
  }

  function FoldPacks(ps: seq<IndexPack>, marked: set<Id>): Overlay {
    AbsorbAll(map[], Flatten(ps), marked)
  }

  /** The merge depends on which packs are listed, not on the order the blobs arrive in. */
  lemma FoldIgnoresOrder(ps: seq<IndexPack>, qs: seq<IndexPack>, marked: set<Id>, c: Id)
    requires forall p :: p in ps <==> p in qs
    ensures c in FoldPacks(ps, marked) <==> c in FoldPacks(qs, marked)
    ensures c in FoldPacks(ps, marked) ==> FoldPacks(ps, marked)[c].pack == FoldPacks(qs, marked)[c].pack
  {
    FlattenMembers(ps);
    FlattenMembers(qs);
    AbsorbIsCanonical(Flatten(ps), marked, c);
    AbsorbIsCanonical(Flatten(qs), marked, c);
    assert Holders(Flatten(ps), {}, c) == Holders(Flatten(qs), {}, c);
    if c in FoldPacks(ps, marked) {
      CanonicalIsUnique(marked, Holders(Flatten(ps), {}, c),
                        FoldPacks(ps, marked)[c].pack, FoldPacks(qs, marked)[c].pack);
    }
  }

  lemma {:induction false} FlattenMembers(ps: seq<IndexPack>)
    ensures forall r :: r in Flatten(ps) <==> exists p :: p in ps && r in PackRecords(p)
    decreases |ps|
  {
    if ps != [] {
      var before, last := ps[..|ps| - 1], ps[|ps| - 1];
      FlattenMembers(before);
      assert ps == before + [last];
      forall r ensures r in Flatten(ps) <==> exists p :: p in ps && r in PackRecords(p) {
        if r in Flatten(before) {
          var p :| p in before && r in PackRecords(p);
          assert p in ps;
        } else if r in PackRecords(last) {
          assert last in ps;
        }
      }
    }
  }

  // ---------- the index ----------

  class ChunkIndex {
    var overlay: Overlay
    /** The cached table, empty when the index was read from the repository. */
    const base: seq<Record>
    var packs: map<Id, nat>

    ghost predicate Valid() {
      StrictlySorted(base)
    }

    /** What the index answers for `id`. */
    ghost function Answer(id: Id): Option<Location>
      reads this
    {
      if id in overlay then Some(overlay[id]) else Lookup(base, id)
    }

    constructor (table: seq<Record>, packs: map<Id, nat>)
      requires StrictlySorted(table)
      ensures Valid() && base == table && this.packs == packs && overlay == map[]
    {
      overlay, base, this.packs := map[], table, packs;
    }

    method Get(id: Id) returns (found: Option<Location>)
      requires Valid()
      ensures found == Answer(id)
    {
      if id in overlay {
        found := Some(overlay[id]);
      } else {
        found := TableGet(base, id);
      }
    }

    /** The smallest pack name wins. */
    method AddPack(p: IndexPack)
      modifies this
      ensures overlay == AbsorbAll(old(overlay), PackRecords(p), {})
      ensures packs == old(packs)[p.pack := p.size]
    {
      packs := packs[p.pack := p.size];
      var rs := PackRecords(p);
      for i := 0 to |p.entries|
        invariant overlay == AbsorbAll(old(overlay), rs[..i], {})
        invariant packs == old(packs)[p.pack := p.size]
      {
        assert rs[..i + 1][..i] == rs[..i];
        var e := p.entries[i];
        if e.id !in overlay || overlay[e.id].pack > p.pack {
          overlay := overlay[e.id := Place(p.pack, e)];
        }
      }
      assert rs[..|rs|] == rs;
    }

    /** The canonical rank wins: the existing and the new location are ranked alike. */
    method AddPackRanked(p: IndexPack, marked: set<Id>)
      modifies this
      ensures overlay == AbsorbAll(old(overlay), PackRecords(p), marked)
      ensures packs == old(packs)[p.pack := p.size]
    {
      packs := packs[p.pack := p.size];
      var rs := PackRecords(p);
      for i := 0 to |p.entries|
        invariant overlay == AbsorbAll(old(overlay), rs[..i], marked)
        invariant packs == old(packs)[p.pack := p.size]
      {
        assert rs[..i + 1][..i] == rs[..i];
        var e := p.entries[i];
        if !(e.id in overlay && RankLeq(marked, overlay[e.id].pack, p.pack)) {
          overlay := overlay[e.id := Place(p.pack, e)];
        }
      }
      assert rs[..|rs|] == rs;
    }

    /** A chunk just written into the open pack; an existing place stays. */
    method AddPending(e: PackEntry)
      modifies `overlay
      ensures overlay == if e.id in old(overlay) then old(overlay) else old(overlay)[e.id := Place(PENDING, e)]
    {
      if e.id !in overlay {
        overlay := overlay[e.id := Place(PENDING, e)];
      }
    }

    /** The same, when the existing place is in a pack marked for deletion. */
    method ReplacePending(e: PackEntry)
      modifies `overlay
      ensures overlay == old(overlay)[e.id := Place(PENDING, e)]
    {
      overlay := overlay[e.id := Place(PENDING, e)];
    }

    /** The open pack has its name now. */
    method ResolvePending(pack: Id, size: nat, entries: seq<PackEntry>)
      requires DistinctIds(entries)
      modifies this
      ensures packs == old(packs)[pack := size]
      ensures overlay.Keys == old(overlay).Keys
      ensures forall id | id in overlay ::
                overlay[id] == Resolved(old(overlay)[id], id, pack, entries)
    {
      packs := packs[pack := size];
      for i := 0 to |entries|
        invariant packs == old(packs)[pack := size]
        invariant overlay.Keys == old(overlay).Keys
        invariant forall id | id in overlay :: overlay[id] == Resolved(old(overlay)[id], id, pack, entries[..i])
      {
        var e := entries[i];
        assert DistinctIds(entries[..i] + [e]);
        if e.id in overlay && overlay[e.id].pack == PENDING {
          overlay := overlay[e.id := Place(pack, e)];
        }
        forall id | id in overlay ensures overlay[id] == Resolved(old(overlay)[id], id, pack, entries[..i + 1]) {
          ResolvedSnoc(old(overlay)[id], id, pack, entries[..i], e);
          assert entries[..i + 1] == entries[..i] + [e];
        }
      }
      assert entries[..|entries|] == entries;
    }
  }

  /** A pending place becomes the entry's place in the named pack; any other place stays. */
  ghost function Resolved(loc: Location, id: Id, pack: Id, entries: seq<PackEntry>): Location {
    if loc.pack == PENDING && exists i :: 0 <= i < |entries| && entries[i].id == id then
      var i :| 0 <= i < |entries| && entries[i].id == id;
      Place(pack, entries[i])
    else loc
  }

  lemma ResolvedAt(loc: Location, pack: Id, es: seq<PackEntry>, i: nat)
    requires DistinctIds(es) && i < |es| && loc.pack == PENDING
    ensures Resolved(loc, es[i].id, pack, es) == Place(pack, es[i])
  {
    forall j | 0 <= j < |es| && es[j].id == es[i].id ensures j == i {
    }
  }

  lemma ResolvedSnoc(loc: Location, id: Id, pack: Id, es: seq<PackEntry>, e: PackEntry)
    requires DistinctIds(es + [e])
    ensures Resolved(loc, id, pack, es + [e]) ==
              if loc.pack == PENDING && e.id == id then Place(pack, e) else Resolved(loc, id, pack, es)
  {
    var all := es + [e];
    assert DistinctIds(es) by {
      forall i, j | 0 <= i < j < |es| ensures es[i].id != es[j].id { assert all[i].id != all[j].id; }
    }
    if loc.pack == PENDING {
      if exists i :: 0 <= i < |all| && all[i].id == id {
        var i :| 0 <= i < |all| && all[i].id == id;
        ResolvedAt(loc, pack, all, i);
        if i < |es| {
          ResolvedAt(loc, pack, es, i);
          assert all[i].id != all[|es|].id;
        }
      } else {
        assert all[|es|].id != id;
        forall j | 0 <= j < |es| ensures es[j].id != id { assert all[j].id != id; }
      }
    }
  }
}
