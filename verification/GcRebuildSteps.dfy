/** rebuild-index beside everything else. A rebuild that does not overlap a prune keeps the invariant: the blob it
  writes lists all packs that were stored when it looked, and so everything the blobs it replaces are used for. */
module GcRebuildSteps {
  import opened Objects
  import opened GcMachine
  import opened GcFrames
  import opened GcIndexHistory
  import opened GcInvariant
  import opened GcSteps

  // ---------- the new blob ----------

  /** The rebuilt index lists all that was listed. */
  lemma RebuiltListsAll(s: State, r: Rebuild, n: Blob, objs': map<Obj, Time>, p: Pack)
    requires r.PacksListed? && r.todo == {} && RebuildInv(s, r) && n.packs == r.read && n.supersedes == r.existing
    requires forall b :: Effective(objs', b) <==> b == n || (Effective(s.objs, b) && b !in r.existing)
    ensures Listed(s.objs, p) ==> Listed(objs', p)
    ensures Listed(objs', p) ==> Listed(s.objs, p) || p in r.read
  {
    hide Effective;
    if Listed(s.objs, p) {
      var b :| Effective(s.objs, b) && p in b.packs;
      assert b in r.existing ==> p in r.todo + r.read;
      assert Effective(objs', if b in r.existing then n else b);
    }
    if Listed(objs', p) {
      var b :| Effective(objs', b) && p in b.packs;
      assert b != n ==> Effective(s.objs, b);
    }
  }

  /** A blob appeared beside an idle prune, and everything that was listed still is. */
  ghost predicate Enriched(s: State, s': State) {
    && s'.now == s.now && s'.touches == s.touches && s'.marks == s.marks && s'.snaps == s.snaps
    && s'.backups == s.backups && s'.prune == s.prune && s.prune.Idle? && s.used <= s'.used
    && (forall o | o in s.objs :: o in s'.objs && s'.objs[o] == s.objs[o])
    && (forall o | o in s'.objs :: o in s.objs || s'.objs[o] == s.now)
    && (forall p | Listed(s.objs, p) :: Listed(s'.objs, p))
  }

  lemma EnrichedIsGentle(cfg: Config, s: State, s': State, b: Backup)
    requires Enriched(s, s')
    ensures Gentle(cfg, s, s', b)
  {
    hide Listed;
  }

  lemma EnrichedKeepsSnaps(cfg: Config, s: State, s': State)
    requires SnapsInv(cfg, s) && Enriched(s, s')
    ensures SnapsInv(cfg, s')
  {
    hide Listed;
    forall t | t in LiveTrees(s'.snaps)
      ensures TreeSafe(cfg, s', t) && forall c | c in t.chunks :: ChunkSafe(cfg, s', c)
    {
      assert TreeSafe(cfg, s, t);
      forall c | c in t.chunks ensures ChunkSafe(cfg, s', c) {
        assert ChunkSafe(cfg, s, c);
      }
    }
  }

  lemma EnrichedIsSafe(cfg: Config, s: State, s': State)
    requires Safe(cfg, s) && Enriched(s, s') && NoPhantoms(s'.objs)
    ensures Safe(cfg, s')
  {
    hide SnapsInv, BackupsInv, NoPhantoms, Gentle, Listed;
    forall k | k in s'.backups ensures Gentle(cfg, s, s', s'.backups[k]) {
      EnrichedIsGentle(cfg, s, s', s'.backups[k]);
    }
    BackupsKept(cfg, s, s');
    EnrichedKeepsSnaps(cfg, s, s');
  }

  lemma StepRWrite(cfg: Config, s: State, k: nat, nonce: nat)
    requires IndexInv(s) && Safe(cfg, s) && RebuildsInv(s) && EnabledRebuild(s, RWrite(k, nonce))
    ensures Safe(cfg, ApplyRebuild(s, RWrite(k, nonce)))
  {
    hide Supersession, PruneListing, BackupsInv, SnapsInv, PruneInv, Effective, Listing, Listed;
    var s' := ApplyRebuild(s, RWrite(k, nonce));
    var r := s.rebuilds[k];
    AddBlob(s, Rebuilt(r, nonce), s'.objs);
    forall p ensures Listed(s.objs, p) ==> Listed(s'.objs, p) {
      RebuiltListsAll(s, r, Rebuilt(r, nonce), s'.objs, p);
    }
    forall p | Listed(s'.objs, p) ensures PackObj(p) in s'.objs {
      RebuiltListsAll(s, r, Rebuilt(r, nonce), s'.objs, p);
    }
    EnrichedIsSafe(cfg, s, s');
  }

  lemma StepRebuild(cfg: Config, s: State, a: Action)
    requires Inv(cfg, s) && OfRebuild(a) && EnabledRebuild(s, a)
    ensures Safe(cfg, ApplyRebuild(s, a))
  {
    hide IndexInv, Safe, RebuildsInv;
    if a.RWrite? {
      StepRWrite(cfg, s, a.k, a.nonce);
    } else {
      StepQuiet(cfg, s, ApplyRebuild(s, a));
    }
  }

  // ---------- what a rebuild relies on ----------

  lemma RebuildKept(s: State, s': State, r: Rebuild)
    requires RebuildInv(s, r) && (forall p | PackObj(p) in s.objs :: PackObj(p) in s'.objs)
    requires forall b | b in r.existing && Effective(s'.objs, b) :: Effective(s.objs, b)
    ensures RebuildInv(s', r)
  {
    hide Effective;
  }

  lemma BackupKeepsPacks(cfg: Config, s: State, a: Action)
    requires OfBackup(a) && EnabledBackup(cfg, s, a)
    ensures var s' := ApplyBackup(cfg, s, a);
            && s'.prune == s.prune && s'.rebuilds == s.rebuilds
            && forall p | PackObj(p) in s.objs :: PackObj(p) in s'.objs
  {
    hide EnabledBackup, ApplyBackup, NewName, BackupEffect;
    BackupActs(cfg, s, a);
    BackupLeaves(s, ApplyBackup(cfg, s, a), a);
  }

  lemma OnlyLoadStarts(cfg: Config, s: State, a: Action)
    requires OfPrune(a) && EnabledPrune(cfg, s, a)
    ensures a.PLoad? || !s.prune.Idle?
  {
    hide Decide, Repacked, NeedsRewrite, NewIndex, Needed, Holder, StageDone, LiveTrees;
  }

  /** Prune runs only while no rebuild does. */
  lemma PruneKeepsRebuilds(cfg: Config, s: State, a: Action)
    requires RebuildsInv(s) && OfPrune(a) && EnabledPrune(cfg, s, a) && RebuildApart(s, a)
    ensures RebuildsInv(ApplyPrune(cfg, s, a))
  {
    hide RebuildInv, EnabledPrune, ApplyPrune, PruneEffect;
    PruneActs(cfg, s, a);
    PruneLeaves(s, ApplyPrune(cfg, s, a), a);
    OnlyLoadStarts(cfg, s, a);
    assert s.rebuilds == map[];
  }

  lemma BackupKeepsRebuilds(cfg: Config, s: State, a: Action)
    requires IndexInv(s) && RebuildsInv(s) && OfBackup(a) && EnabledBackup(cfg, s, a)
    ensures RebuildsInv(ApplyBackup(cfg, s, a))
  {
    hide History, Names, Supersession, PruneListing, EnabledBackup, ApplyBackup, RebuildInv, Effective, ReplacedTogether;
    var s' := ApplyBackup(cfg, s, a);
    BackupKeepsPacks(cfg, s, a);
    StepKeepsIndex(cfg, s, a);
    forall k | k in s'.rebuilds ensures RebuildInv(s', s'.rebuilds[k]) {
      assert Listing(s, s.rebuilds[k].existing);
      RebuildKept(s, s', s.rebuilds[k]);
    }
  }

  /** A rebuild's own steps. */
  lemma OwnRebuildStep(s: State, a: Action)
    requires NoPhantoms(s.objs) && RebuildsInv(s) && OfRebuild(a) && EnabledRebuild(s, a)
    requires !a.RWrite?
    ensures a.k in ApplyRebuild(s, a).rebuilds ==> RebuildInv(ApplyRebuild(s, a), ApplyRebuild(s, a).rebuilds[a.k])
  {
    hide Effective;
    if a.RListPacks? {
      forall b, p | b in s.rebuilds[a.k].existing && Effective(s.objs, b) && p in b.packs
        ensures p in PacksOf(s.objs)
      {
        assert Listed(s.objs, p);
        assert PackObj(p) in s.objs;
      }
    } else if a.RReadPack? {
      var r, r' := s.rebuilds[a.k], ApplyRebuild(s, a).rebuilds[a.k];
      assert RebuildInv(s, r);
      assert forall q :: q in r.todo + r.read <==> q in r'.todo + r'.read;
    }
  }

  lemma OtherRebuilds(s: State, a: Action)
    requires OfRebuild(a) && EnabledRebuild(s, a)
    ensures var s' := ApplyRebuild(s, a);
            && s'.prune == s.prune && (a.RWrite? ==> a.k !in s'.rebuilds)
            && (forall p | PackObj(p) in s.objs :: PackObj(p) in s'.objs)
            && (forall k | k in s'.rebuilds && k != a.k :: k in s.rebuilds && s'.rebuilds[k] == s.rebuilds[k])
            && (a.RListBlobs? || s.rebuilds != map[])
  {
    hide Blobs, PacksOf;
  }

  lemma OthersHold(s: State, s': State, k0: nat)
    requires Listings(s) && RebuildsInv(s) && (forall p | PackObj(p) in s.objs :: PackObj(p) in s'.objs)
    requires forall b | IndexObj(b) in s.used && Effective(s'.objs, b) :: Effective(s.objs, b)
    requires forall k | k in s'.rebuilds && k != k0 :: k in s.rebuilds && s'.rebuilds[k] == s.rebuilds[k]
    requires k0 in s'.rebuilds ==> RebuildInv(s', s'.rebuilds[k0])
    ensures forall k | k in s'.rebuilds :: RebuildInv(s', s'.rebuilds[k])
  {
    hide RebuildInv, Effective, ReplacedTogether;
    forall k | k in s'.rebuilds ensures RebuildInv(s', s'.rebuilds[k]) {
      if k != k0 {
        assert Listing(s, s.rebuilds[k].existing);
        RebuildKept(s, s', s.rebuilds[k]);
      }
    }
  }

  lemma RebuildKeepsRebuilds(cfg: Config, s: State, a: Action)
    requires IndexInv(s) && NoPhantoms(s.objs) && RebuildsInv(s) && OfRebuild(a) && EnabledRebuild(s, a)
    requires RebuildApart(s, a)
    ensures RebuildsInv(ApplyRebuild(s, a))
  {
    hide History, Names, Supersession, PruneListing, RebuildInv, Effective, Listing, NoPhantoms,
         EnabledRebuild, ApplyRebuild, EnabledBackup, EnabledPrune, ApplyBackup, ApplyPrune;
    var s' := ApplyRebuild(s, a);
    StepKeepsIndex(cfg, s, a);
    OtherRebuilds(s, a);
    if !a.RWrite? {
      OwnRebuildStep(s, a);
    }
    OthersHold(s, s', a.k);
  }

  lemma StepKeepsRebuilds(cfg: Config, s: State, a: Action)
    requires Inv(cfg, s) && Enabled(cfg, s, a) && Environment(cfg, s, a)
    ensures RebuildsInv(Apply(cfg, s, a))
  {
    hide BackupsInv, SnapsInv, PruneInv, EnabledBackup, EnabledRebuild, EnabledPrune, ApplyBackup, ApplyRebuild,
         ApplyPrune, RebuildApart, IndexInv;
    if OfPrune(a) {
      PruneKeepsRebuilds(cfg, s, a);
    } else if OfBackup(a) {
      BackupKeepsRebuilds(cfg, s, a);
    } else if OfRebuild(a) {
      RebuildKeepsRebuilds(cfg, s, a);
    }
  }
}
