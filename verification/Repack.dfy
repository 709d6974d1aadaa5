/** Repacking: the chunks a sparse pack still holds canonically move to new packs (prune.rs). */
module Repacking {
  import opened Wrappers
  import opened ChunkTable
  import opened PruneIndexing
  import opened ChunkIndexing
  import PackFormat

  // ---------- prune and backup choose the same pack ----------

  /** `rs` is the table `PruneIndex` builds from the listed packs. */
  ghost predicate TableOf(rs: seq<Record>, ps: seq<IndexPack>) {
    (forall r | r in rs :: r in Flatten(ps)) && (forall r | r in Flatten(ps) :: Represented(rs, r))
  }

  lemma SameHolders(rs: seq<Record>, ps: seq<IndexPack>, gone: set<Id>, c: Id)
    requires TableOf(rs, ps)
    ensures Holders(rs, gone, c) == Holders(Flatten(ps), gone, c)
  {
    forall p | p in Holders(Flatten(ps), gone, c) ensures p in Holders(rs, gone, c) {
      var r :| r in Flatten(ps) && r.id == c && r.location.pack == p;
      var k :| k in rs && SameHolder(k, r) && RecordLeq(k, r);
    }
  }

  /** The ranked merge of a backup and prune's table pick the same pack for a chunk, exactly when
      the pack the merge picked is in storage. */
  lemma BackupAndPruneAgree(rs: seq<Record>, ps: seq<IndexPack>, marked: set<Id>, gone: set<Id>, c: Id)
    requires TableOf(rs, ps) && c in FoldPacks(ps, marked)
    ensures var p := FoldPacks(ps, marked)[c].pack;
            Best(rs, marked, gone, c) == Some(p) <==> p !in gone
  {
    var p := FoldPacks(ps, marked)[c].pack;
    var hs, present := Holders(Flatten(ps), {}, c), Holders(Flatten(ps), gone, c);
    SameHolders(rs, ps, gone, c);
    AbsorbIsCanonical(Flatten(ps), marked, c);
    assert present <= hs;
    if p !in gone {
      assert p in present;
      CanonicalIsUnique(marked, present, p, Canonical(marked, present));
    }
  }

  // ---------- the move ----------

  /** The chunks of a list of new packs, in order. */
  ghost function Joined(out: seq<seq<PackEntry>>): seq<Id> {
    if out == [] then [] else Joined(out[..|out| - 1]) + IdsOf(out[|out| - 1])
  }

  ghost function IdsOf(es: seq<PackEntry>): (ids: seq<Id>)
    ensures |ids| == |es| && forall k | 0 <= k < |es| :: ids[k] == es[k].id
  {
    seq(|es|, k requires 0 <= k < |es| => es[k].id)
  }

  /** The bytes of a pack before its trailer. */
  function PackLength(es: seq<PackEntry>): nat {
    if es == [] then PackFormat.HEADER_LEN else PackLength(es[..|es| - 1]) + es[|es| - 1].length
  }

  ghost predicate NoRepeats(cs: seq<Id>) {
    forall i, j | 0 <= i < j < |cs| :: cs[i] != cs[j]
  }

  /** The pack was not full before its last chunk. */
  ghost predicate ClosedInTime(es: seq<PackEntry>, target: nat) {
    es != [] && (|es| == 1 || PackLength(es[..|es| - 1]) < target)
  }

  ghost predicate AllFull(out: seq<seq<PackEntry>>, target: nat) {
    forall k | 0 <= k < |out| :: target <= PackLength(out[k]) && ClosedInTime(out[k], target)
  }

  lemma OneEntryMore(open: seq<PackEntry>, e: PackEntry, target: nat)
    ensures PackLength(open + [e]) == PackLength(open) + e.length && IdsOf(open + [e]) == IdsOf(open) + [e.id]
    ensures open == [] || PackLength(open) < target ==> ClosedInTime(open + [e], target)
  {
    assert (open + [e])[..|open|] == open;
  }

  lemma NoEntries()
    ensures PackLength([]) == PackFormat.HEADER_LEN && IdsOf([]) == []
  {
  }

  lemma OnePackMore(out: seq<seq<PackEntry>>, es: seq<PackEntry>, target: nat)
    ensures Joined(out + [es]) == Joined(out) + IdsOf(es)
    ensures AllFull(out, target) && target <= PackLength(es) && ClosedInTime(es, target) ==> AllFull(out + [es], target)
  {
    assert (out + [es])[..|out|] == out;
  }

  /** The writer of new packs: the finished ones and the open one. */
  class Writer {
    const target: nat
    var finished: seq<seq<PackEntry>>
    var open: seq<PackEntry>
    var size: nat
    /** Every chunk ever added, in order. */
    ghost var added: seq<Id>

    ghost predicate Valid()
      reads this
    {
      && added == Joined(finished) + IdsOf(open) && size == PackLength(open)
      && (open == [] || size < target)
      && AllFull(finished, target)
    }

    constructor (target: nat)
      ensures Valid() && added == [] && finished == [] && open == [] && this.target == target
    {
      this.target, finished, open, size, added := target, [], [], PackFormat.HEADER_LEN, [];
    }

    method Add(e: PackEntry)
      requires Valid()
      modifies this
      ensures Valid() && added == old(added) + [e.id]
    {
      hide IdsOf, PackLength, Joined, AllFull, ClosedInTime;
      OneEntryMore(open, e, target);
      OnePackMore(finished, open + [e], target);
      NoEntries();
      open, size, added := open + [e], size + e.length, added + [e.id];
      if size >= target {
        finished := finished + [open];
        open, size := [], PackFormat.HEADER_LEN;
      }
    }

    /** Closes the last pack, however full. */
    method Finish() returns (out: seq<seq<PackEntry>>)
      requires Valid()
      ensures added == Joined(out)
      ensures forall k | 0 <= k < |out| :: ClosedInTime(out[k], target)
      ensures forall k | 0 <= k < |out| - 1 :: target <= PackLength(out[k])
    {
      out := finished;
      if open != [] {
        assert (finished + [open])[..|finished|] == finished;
        assert open == open[..|open| - 1] + [open[|open| - 1]];
        out := finished + [open];
      }
    }
  }

  /** What must be moved out of pack `p`: referenced, in no kept pack, not copied yet. */
  ghost predicate Wanted(idx: PruneIndex, kept: set<Id>, copied: set<Id>, c: Id)
    reads idx
    requires idx.Valid()
  {
    ReferencedIn(idx, c) && !HeldIn(idx, kept, c) && c !in copied
  }

  ghost predicate ReferencedIn(idx: PruneIndex, c: Id)
    reads idx
    requires idx.Valid()
  {
    exists j :: 0 <= j < |idx.records| && idx.records[j].id == c && idx.referenced[j]
  }

  ghost predicate HeldIn(idx: PruneIndex, kept: set<Id>, c: Id)
    reads idx
  {
    exists r :: r in idx.records && r.id == c && r.location.pack in kept
  }

  method SelectEntries(p: IndexPack, idx: PruneIndex, kept: set<Id>, copied: set<Id>) returns (es: seq<PackEntry>)
    requires idx.Valid() && DistinctIds(p.entries)
    ensures DistinctIds(es)
    ensures forall e | e in es :: e in p.entries && Wanted(idx, kept, copied, e.id)
    ensures forall e | e in p.entries && Wanted(idx, kept, copied, e.id) :: e in es
  {
    es := [];
    for i := 0 to |p.entries|
      invariant DistinctIds(es)
      invariant forall e | e in es :: e in p.entries[..i] && Wanted(idx, kept, copied, e.id)
      invariant forall j | 0 <= j < i && Wanted(idx, kept, copied, p.entries[j].id) :: p.entries[j] in es
    {
      var e := p.entries[i];
      var yes := idx.IsReferenced(e.id);
      var held := idx.HeldBy(e.id, kept);
      assert forall x | x in p.entries[..i] :: x.id != e.id;
      assert p.entries[..i + 1] == p.entries[..i] + [e];
      if yes && !held && e.id !in copied {
        es := es + [e];
      }
    }
    assert p.entries[..|p.entries|] == p.entries;
  }

  method AddEntries(w: Writer, es: seq<PackEntry>)
    requires w.Valid() && DistinctIds(es) && NoRepeats(w.added)
    requires forall e | e in es :: e.id !in w.added
    modifies w
    ensures w.Valid() && NoRepeats(w.added)
    ensures forall c :: c in w.added <==> c in old(w.added) || exists e :: e in es && e.id == c
  {
    for i := 0 to |es|
      invariant w.Valid() && NoRepeats(w.added)
      invariant forall c :: c in w.added <==> c in old(w.added) || exists j :: 0 <= j < i && es[j].id == c
    {
      assert es[i] in es;
      w.Add(es[i]);
    }
    assert forall e | e in es :: exists j :: 0 <= j < |es| && es[j] == e;
  }

  ghost predicate HoldsChunk(indexed: map<Id, IndexPack>, p: Id, c: Id) {
    p in indexed && exists e :: e in indexed[p].entries && e.id == c
  }

  /** One of these packs is in the index, can be read, and holds the chunk. */
  ghost predicate ReadFrom(packs: seq<Id>, indexed: map<Id, IndexPack>, readable: set<Id>, c: Id) {
    exists p :: p in packs && p in readable && HoldsChunk(indexed, p, c)
  }

  /** The chunk is needed and in no pack that stays. */
  ghost predicate Moving(idx: PruneIndex, kept: set<Id>, c: Id)
    reads idx
    requires idx.Valid()
  {
    ReferencedIn(idx, c) && !HeldIn(idx, kept, c)
  }

  /** What repacking makes of the packs: `copied` is what went to new packs, `failed` the packs that had something to
      move and could not be read. */
  ghost predicate Moved(packs: seq<Id>, indexed: map<Id, IndexPack>, idx: PruneIndex, kept: set<Id>, readable: set<Id>,
                        copied: seq<Id>, failed: set<Id>)
    reads idx
    requires idx.Valid()
  {
    && NoRepeats(copied)
    && (forall c :: c in copied <==> Moving(idx, kept, c) && ReadFrom(packs, indexed, readable, c))
    && (forall p :: p in failed <==> exists i :: 0 <= i < |packs| && packs[i] == p && FailsAt(packs, i, indexed, idx, kept, readable))
  }

  /** The `i`th pack cannot be read, and holds something to move that no earlier pack gave. */
  ghost predicate FailsAt(packs: seq<Id>, i: nat, indexed: map<Id, IndexPack>, idx: PruneIndex, kept: set<Id>, readable: set<Id>)
    reads idx
    requires idx.Valid() && i < |packs|
  {
    && packs[i] !in readable
    && exists c :: HoldsChunk(indexed, packs[i], c) && Moving(idx, kept, c) && !ReadFrom(packs[..i], indexed, readable, c)
  }

  lemma ReadFromSnoc(packs: seq<Id>, i: nat, indexed: map<Id, IndexPack>, readable: set<Id>)
    requires i < |packs|
    ensures forall c :: ReadFrom(packs[..i + 1], indexed, readable, c) <==>
              ReadFrom(packs[..i], indexed, readable, c) || (packs[i] in readable && HoldsChunk(indexed, packs[i], c))
  {
    assert packs[..i + 1] == packs[..i] + [packs[i]];
    forall c ensures ReadFrom(packs[..i + 1], indexed, readable, c) <==>
        ReadFrom(packs[..i], indexed, readable, c) || (packs[i] in readable && HoldsChunk(indexed, packs[i], c)) {
    }
  }

  lemma FailsAtPrefix(packs: seq<Id>, i: nat, k: nat, indexed: map<Id, IndexPack>, idx: PruneIndex, kept: set<Id>, readable: set<Id>)
    requires idx.Valid() && k < i <= |packs|
    ensures FailsAt(packs[..i], k, indexed, idx, kept, readable) <==> FailsAt(packs, k, indexed, idx, kept, readable)
  {
    hide Moving, HoldsChunk, ReadFrom;
    assert packs[..i][..k] == packs[..k];
  }

  /** One pack more. */
  lemma MovedNext(packs: seq<Id>, i: nat, indexed: map<Id, IndexPack>, idx: PruneIndex, kept: set<Id>, readable: set<Id>,
                  copied: seq<Id>, failed: set<Id>, copied': seq<Id>, failed': set<Id>)
    requires idx.Valid() && i < |packs| && Moved(packs[..i], indexed, idx, kept, readable, copied, failed)
    requires NoRepeats(copied')
    requires forall c :: c in copied' <==>
               c in copied || (packs[i] in readable && HoldsChunk(indexed, packs[i], c) && Moving(idx, kept, c))
    requires failed' == if FailsAt(packs, i, indexed, idx, kept, readable) then failed + {packs[i]} else failed
    ensures Moved(packs[..i + 1], indexed, idx, kept, readable, copied', failed')
  {
    hide Moving, HoldsChunk, ReadFrom, NoRepeats, FailsAt;
    ReadFromSnoc(packs, i, indexed, readable);
    forall k | 0 <= k <= i ensures FailsAt(packs[..i + 1], k, indexed, idx, kept, readable) <==> FailsAt(packs, k, indexed, idx, kept, readable) {
      FailsAtPrefix(packs, i + 1, k, indexed, idx, kept, readable);
    }
    forall k | 0 <= k < i ensures FailsAt(packs[..i], k, indexed, idx, kept, readable) <==> FailsAt(packs, k, indexed, idx, kept, readable) {
      FailsAtPrefix(packs, i, k, indexed, idx, kept, readable);
    }
    assert packs[..i + 1][i] == packs[i];
  }

  /** Moves what the sparse packs hold canonically. A pack outside `readable` cannot be read or
      does not decode; it is skipped as a whole. */
  method RepackPacks(packs: seq<Id>, indexed: map<Id, IndexPack>, idx: PruneIndex, kept: set<Id>,
                     readable: set<Id>, target: nat)
    returns (out: seq<seq<PackEntry>>, failed: set<Id>)
    requires idx.Valid()
    requires forall p | p in indexed :: DistinctIds(indexed[p].entries)
    ensures Moved(packs, indexed, idx, kept, readable, Joined(out), failed)
    ensures forall k | 0 <= k < |out| :: ClosedInTime(out[k], target)
    ensures forall k | 0 <= k < |out| - 1 :: target <= PackLength(out[k])
  {
    hide ReferencedIn, HeldIn, DistinctIds, Moved, FailsAt;
    var w := new Writer(target);
    failed := {};
    var copied: set<Id> := {};
    NothingMoved(packs, indexed, idx, kept, readable);
    for i := 0 to |packs|
      invariant w.Valid() && fresh(w) && w.target == target
      invariant Moved(packs[..i], indexed, idx, kept, readable, w.added, failed)
      invariant forall c :: c in w.added <==> c in copied
    {
      ghost var added, before := w.added, failed;
      MovedParts(packs[..i], indexed, idx, kept, readable, added, failed);
      if packs[i] in indexed {
        var es := SelectEntries(indexed[packs[i]], idx, kept, copied);
        Selected(packs, i, indexed, idx, kept, readable, added, copied, es);
        if es != [] {
          if packs[i] in readable {
            AddEntries(w, es);
            copied := copied + set e | e in es :: e.id;
          } else {
            failed := failed + {packs[i]};
          }
        }
      } else {
        NotIndexed(packs, i, indexed, idx, kept, readable);
      }
      MovedNext(packs, i, indexed, idx, kept, readable, added, before, w.added, failed);
    }
    assert packs[..|packs|] == packs;
    out := w.Finish();
  }

  lemma NothingMoved(packs: seq<Id>, indexed: map<Id, IndexPack>, idx: PruneIndex, kept: set<Id>, readable: set<Id>)
    requires idx.Valid()
    ensures Moved(packs[..0], indexed, idx, kept, readable, [], {})
  {
  }

  lemma MovedParts(packs: seq<Id>, indexed: map<Id, IndexPack>, idx: PruneIndex, kept: set<Id>, readable: set<Id>,
                   copied: seq<Id>, failed: set<Id>)
    requires idx.Valid() && Moved(packs, indexed, idx, kept, readable, copied, failed)
    ensures NoRepeats(copied)
    ensures forall c :: c in copied <==> Moving(idx, kept, c) && ReadFrom(packs, indexed, readable, c)
  {
  }

  lemma NotIndexed(packs: seq<Id>, i: nat, indexed: map<Id, IndexPack>, idx: PruneIndex, kept: set<Id>, readable: set<Id>)
    requires idx.Valid() && i < |packs| && packs[i] !in indexed
    ensures !FailsAt(packs, i, indexed, idx, kept, readable) && forall c :: !HoldsChunk(indexed, packs[i], c)
  {
  }

  /** What was selected is what the pack has to give, and an unreadable pack fails exactly if there is any. */
  lemma Selected(packs: seq<Id>, i: nat, indexed: map<Id, IndexPack>, idx: PruneIndex, kept: set<Id>, readable: set<Id>,
                 added: seq<Id>, copied: set<Id>, es: seq<PackEntry>)
    requires idx.Valid() && i < |packs| && packs[i] in indexed
    requires forall c :: c in added <==> c in copied
    requires forall c :: c in added <==> Moving(idx, kept, c) && ReadFrom(packs[..i], indexed, readable, c)
    requires forall e | e in es :: e in indexed[packs[i]].entries && Wanted(idx, kept, copied, e.id)
    requires forall e | e in indexed[packs[i]].entries && Wanted(idx, kept, copied, e.id) :: e in es
    ensures forall c :: c in added || (exists e :: e in es && e.id == c) <==>
              c in added || (HoldsChunk(indexed, packs[i], c) && Moving(idx, kept, c))
    ensures FailsAt(packs, i, indexed, idx, kept, readable) <==> es != [] && packs[i] !in readable
  {
    hide ReferencedIn, HeldIn, ReadFrom;
    if es != [] {
      assert es[0] in es && HoldsChunk(indexed, packs[i], es[0].id);
    }
  }

  // ---------- the rewritten index ----------

  /** Where a chunk can be found after the rewrite: an old pack, or the `k`-th new one. */
  datatype Home = OldPack(pack: Id) | NewPack(k: nat)

  /** The rewritten index takes over every indexed pack that is neither deleted nor gone, and adds the new ones. */
  ghost predicate InNewIndex(indexed: map<Id, IndexPack>, out: seq<seq<PackEntry>>, deleted: set<Id>, phantoms: set<Id>, h: Home) {
    match h
    case OldPack(p) => p in indexed && p !in deleted && p !in phantoms
    case NewPack(k) => k < |out|
  }

  ghost predicate HomeOf(indexed: map<Id, IndexPack>, out: seq<seq<PackEntry>>, h: Home, c: Id) {
    match h
    case OldPack(p) => p in indexed && exists e :: e in indexed[p].entries && e.id == c
    case NewPack(k) => k < |out| && c in IdsOf(out[k])
  }

  lemma {:induction false} JoinedHome(out: seq<seq<PackEntry>>, c: Id) returns (k: nat)
    requires c in Joined(out)
    ensures k < |out| && c in IdsOf(out[k])
    decreases |out|
  {
    if c in IdsOf(out[|out| - 1]) {
      k := |out| - 1;
    } else {
      k := JoinedHome(out[..|out| - 1], c);
    }
  }

  /** Every record of the table comes from an indexed pack. */
  ghost predicate Indexed(rs: seq<Record>, indexed: map<Id, IndexPack>) {
    forall r | r in rs :: r.location.pack in indexed
                          && exists e :: e in indexed[r.location.pack].entries && e.id == r.id
  }

  lemma NeededIsStored(rs: seq<Record>, marked: set<Id>, phantoms: set<Id>, refs: seq<Id>, needed: set<Id>)
    requires Chosen(rs, marked, phantoms, refs, needed)
    ensures needed !! phantoms
  {
    forall p | p in needed ensures p !in phantoms {
      var c :| c in refs && Best(rs, marked, phantoms, c) == Some(p);
      assert p in Holders(rs, phantoms, c);
    }
  }

  /** After the rewrite every referenced chunk has a home that the new index lists: a new pack, filled from a pack that
      could be read, or a needed old one that is in storage, not deleted, and not repacked unless it failed, so that
      it is not marked either. `deleted` is what the plan deletes, which is never a needed pack. */
  lemma EveryChunkStaysHeld(idx: PruneIndex, marked: set<Id>, phantoms: set<Id>, needed: set<Id>, deleted: set<Id>,
                            refs: seq<Id>, packs: seq<Id>, indexed: map<Id, IndexPack>, readable: set<Id>,
                            out: seq<seq<PackEntry>>, failed: set<Id>, c: Id)
    requires idx.Valid() && Chosen(idx.records, marked, phantoms, refs, needed) && c in refs
    requires Flagged(idx.records, idx.referenced, phantoms, refs)
    requires Indexed(idx.records, indexed) && deleted !! needed
    requires Moved(packs, indexed, idx, needed - (set p | p in packs), readable, Joined(out), failed)
    ensures exists h :: && InNewIndex(indexed, out, deleted, phantoms, h) && HomeOf(indexed, out, h, c)
                        && (h.OldPack? ==> h.pack in needed && (h.pack !in packs || h.pack in failed))
                        && (h.NewPack? ==> ReadFrom(packs, indexed, readable, c))
  {
    hide InNewIndex, HomeOf;
    NeededIsStored(idx.records, marked, phantoms, refs, needed);
    var p := Best(idx.records, marked, phantoms, c).value;
    var r :| r in idx.records && r.id == c && r.location.pack == p;
    OldHome(idx, phantoms, needed, deleted, indexed, out, r);
    var kept := needed - set p | p in packs;
    if p in packs {
      assert ReferencedIn(idx, c) && HoldsChunk(indexed, p, c);
      if HeldIn(idx, kept, c) {
        var q :| q in idx.records && q.id == c && q.location.pack in kept;
        OldHome(idx, phantoms, needed, deleted, indexed, out, q);
      } else if ReadFrom(packs, indexed, readable, c) {
        var k := JoinedHome(out, c);
        NewHome(indexed, out, deleted, phantoms, k, c);
      } else {
        UnreadFails(packs, indexed, idx, kept, readable, p, c);
      }
    }
  }

  /** A listed pack with something to move that no listed pack gave has failed. */
  lemma UnreadFails(packs: seq<Id>, indexed: map<Id, IndexPack>, idx: PruneIndex, kept: set<Id>, readable: set<Id>, p: Id, c: Id)
    requires idx.Valid() && p in packs && HoldsChunk(indexed, p, c) && Moving(idx, kept, c)
    requires !ReadFrom(packs, indexed, readable, c)
    ensures exists i :: 0 <= i < |packs| && packs[i] == p && FailsAt(packs, i, indexed, idx, kept, readable)
  {
    hide Moving, HoldsChunk;
    var i :| 0 <= i < |packs| && packs[i] == p;
    assert !ReadFrom(packs[..i], indexed, readable, c);
    assert FailsAt(packs, i, indexed, idx, kept, readable);
  }

  lemma NewHome(indexed: map<Id, IndexPack>, out: seq<seq<PackEntry>>, deleted: set<Id>, phantoms: set<Id>, k: nat, c: Id)
    requires k < |out| && c in IdsOf(out[k])
    ensures InNewIndex(indexed, out, deleted, phantoms, NewPack(k)) && HomeOf(indexed, out, NewPack(k), c)
  {
  }

  lemma OldHome(idx: PruneIndex, phantoms: set<Id>, needed: set<Id>, deleted: set<Id>, indexed: map<Id, IndexPack>,
                out: seq<seq<PackEntry>>, r: Record)
    requires Indexed(idx.records, indexed) && deleted !! needed && phantoms !! needed
    requires r in idx.records && r.location.pack in needed
    ensures InNewIndex(indexed, out, deleted, phantoms, OldPack(r.location.pack))
    ensures HomeOf(indexed, out, OldPack(r.location.pack), r.id)
  {
  }
}
