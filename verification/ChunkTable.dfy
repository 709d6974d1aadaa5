/** Where chunks live: index packs, table records, and the one rule that picks a
  canonical pack for a chunk (index.rs, format.md section 10). */
module ChunkTable {

  /** A 32-byte name. Names are only ever compared byte by byte, which is the order of the
      big-endian numbers they spell. */
  type Id = nat

  datatype PackEntry = PackEntry(id: Id, offset: nat, length: nat, rawLen: nat)

  datatype IndexPack = IndexPack(pack: Id, size: nat, entries: seq<PackEntry>)

  datatype Location = Location(pack: Id, offset: nat, length: nat, rawLen: nat)

  /** One (chunk, holder) pair. */
  datatype Record = Record(id: Id, location: Location)

  ghost predicate DistinctIds(es: seq<PackEntry>) {
    forall i, j | 0 <= i < j < |es| :: es[i].id != es[j].id
  }

  function Place(pack: Id, e: PackEntry): Location {
    Location(pack, e.offset, e.length, e.rawLen)
  }

  function PackRecords(p: IndexPack): (rs: seq<Record>)
    ensures |rs| == |p.entries|
    ensures forall i | 0 <= i < |rs| :: rs[i] == Record(p.entries[i].id, Place(p.pack, p.entries[i]))
  {
    seq(|p.entries|, i requires 0 <= i < |p.entries| => Record(p.entries[i].id, Place(p.pack, p.entries[i])))
  }

  function Flatten(ps: seq<IndexPack>): seq<Record> {
    if ps == [] then [] else Flatten(ps[..|ps| - 1]) + PackRecords(ps[|ps| - 1])
  }

  // ---------- the canonical rank ----------

  /** `canonical_rank`: unmarked packs first, then the smaller name. */
  predicate RankLeq(marked: set<Id>, p: Id, q: Id) {
    if (p in marked) != (q in marked) then p !in marked else p <= q
  }

  ghost predicate IsCanonical(marked: set<Id>, hs: set<Id>, p: Id) {
    p in hs && forall q | q in hs :: RankLeq(marked, p, q)
  }

  lemma CanonicalIsUnique(marked: set<Id>, hs: set<Id>, p: Id, q: Id)
    requires IsCanonical(marked, hs, p) && IsCanonical(marked, hs, q)
    ensures p == q
  {
    assert RankLeq(marked, p, q) && RankLeq(marked, q, p);
  }

  lemma {:induction false} CanonicalExists(marked: set<Id>, hs: set<Id>)
    requires hs != {}
    ensures exists p :: IsCanonical(marked, hs, p)
    decreases hs
  {
    var h :| h in hs;
    var p := h;
    if hs != {h} {
      CanonicalExists(marked, hs - {h});
      var q :| IsCanonical(marked, hs - {h}, q);
      p := if RankLeq(marked, h, q) then h else q;
    }
    forall x | x in hs ensures RankLeq(marked, p, x) {
      assert x == h || x in hs - {h};
    }
    assert IsCanonical(marked, hs, p);
  }

  ghost function Canonical(marked: set<Id>, hs: set<Id>): (p: Id)
    requires hs != {}
    ensures IsCanonical(marked, hs, p)
  {
    CanonicalExists(marked, hs);
    var p :| IsCanonical(marked, hs, p);
    p
  }

  /** The packs that hold `c`, leaving out those in `gone`. */
  ghost function Holders(rs: seq<Record>, gone: set<Id>, c: Id): set<Id> {
    set r | r in rs && r.id == c && r.location.pack !in gone :: r.location.pack
  }

  // ---------- sorted tables ----------

  ghost predicate StrictlySorted(t: seq<Record>) {
    forall i, j | 0 <= i < j < |t| :: t[i].id < t[j].id
  }

  /** What a table says; of several records for a chunk the last counts. */
  ghost function MapOf(t: seq<Record>): map<Id, Location> {
    if t == [] then map[]
    else MapOf(t[..|t| - 1])[t[|t| - 1].id := t[|t| - 1].location]
  }

  lemma {:induction false} MapOfMember(t: seq<Record>, j: nat)
    requires StrictlySorted(t) && j < |t|
    ensures t[j].id in MapOf(t) && MapOf(t)[t[j].id] == t[j].location
    decreases |t|
  {
    if j < |t| - 1 {
      MapOfMember(t[..|t| - 1], j);
    }
  }

  lemma {:induction false} MapOfKey(t: seq<Record>, id: Id)
    requires id in MapOf(t)
    ensures Record(id, MapOf(t)[id]) in t
    decreases |t|
  {
    if t[|t| - 1].id != id {
      MapOfKey(t[..|t| - 1], id);
    } else {
      assert t[|t| - 1] == Record(id, MapOf(t)[id]);
    }
  }
}
