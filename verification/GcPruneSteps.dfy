/** Every step of prune keeps the invariant. */
module GcPruneSteps {
  import opened Objects
  import opened ChunkTable
  import opened GcMachine
  import opened GcIndexHistory
  import opened GcInvariant
  import opened GcSteps

  // ---------- prune reads and decides ----------

  /** Prune changed its own memory only. */
  lemma StepPlanning(cfg: Config, s: State, p: Prune, s': State)
    requires Safe(cfg, s) && s' == s.(prune := p)
    requires !p.Idle? ==> PlanNow(p) <= s.now
    requires PruneInv(cfg, s') && SnapsInv(cfg, s')
    ensures Safe(cfg, s')
  {
    hide SnapsInv, PruneInv, NoPhantoms, Gentle, BackupsInv;
    forall k | k in s'.backups ensures Gentle(cfg, s, s', s'.backups[k]) {
      SameIsGentle(cfg, s, s', s'.backups[k]);
    }
    BackupsKept(cfg, s, s');
  }

  lemma BlobsAreStored(cfg: Config, s: State, s': State)
    requires s'.objs == s.objs && s'.marks == s.marks
    ensures IndexView(cfg, s', s.now, Blobs(s.objs))
  {
    var bs := Blobs(s.objs);
    forall b ensures b in bs <==> IndexObj(b) in s.objs {}
    forall b | b in bs ensures Effective(s.objs, b) <==> EffectiveIn(bs, b) {
      forall b' ensures b' in bs <==> IndexObj(b') in s.objs {}
    }
  }

  /** Prune has not condemned anything, or nothing more than before, and knows as much as before. */
  lemma NothingCondemned(cfg: Config, s: State, s': State)
    requires SnapsInv(cfg, s) && !s.prune.Walked? && !s'.prune.Walked?
    requires s'.objs == s.objs && s'.touches == s.touches && s'.snaps == s.snaps
    requires forall o | Condemned(s'.prune, o) :: Condemned(s.prune, o) && s'.prune.plan.toDelete == s.prune.plan.toDelete
    ensures SnapsInv(cfg, s')
  {
    hide Condemned, Listed, LiveTrees;
    forall t | t in LiveTrees(s'.snaps)
      ensures TreeSafe(cfg, s', t) && forall c | c in t.chunks :: ChunkSafe(cfg, s', c)
    {
      assert TreeSafe(cfg, s, t);
      forall c | c in t.chunks ensures ChunkSafe(cfg, s', c) {
        assert ChunkSafe(cfg, s, c);
      }
    }
  }

  lemma StepPLoad(cfg: Config, s: State)
    requires Safe(cfg, s) && EnabledPrune(cfg, s, PLoad)
    ensures Safe(cfg, ApplyPrune(cfg, s, PLoad))
  {
    hide SnapsInv, IndexView;
    var s' := ApplyPrune(cfg, s, PLoad);
    BlobsAreStored(cfg, s, s');
    NothingCondemned(cfg, s, s');
    StepPlanning(cfg, s, s'.prune, s');
  }

  lemma WalkKnowsAll(cfg: Config, s: State, s': State)
    requires SnapsInv(cfg, s) && s.prune.Loaded? && s'.prune.Walked?
    requires s'.prune.live == LiveTrees(s.snaps) && s'.prune.referenced == ChunksOf(LiveTrees(s.snaps))
    requires s' == s.(prune := s'.prune)
    ensures SnapsInv(cfg, s')
  {
    forall t | t in LiveTrees(s'.snaps)
      ensures TreeSafe(cfg, s', t) && forall c | c in t.chunks :: ChunkSafe(cfg, s', c)
    {
      assert TreeSafe(cfg, s, t);
    }
  }

  lemma StepPWalk(cfg: Config, s: State)
    requires Safe(cfg, s) && EnabledPrune(cfg, s, PWalk)
    ensures Safe(cfg, ApplyPrune(cfg, s, PWalk))
  {
    hide SnapsInv, IndexView, NoPhantoms, BackupsInv;
    var s' := ApplyPrune(cfg, s, PWalk);
    WalkKnowsAll(cfg, s, s');
    IndexViewKept(cfg, s, s', s.prune.planNow, s.prune.blobs);
    StepPlanning(cfg, s, s'.prune, s');
  }

  /** What prune found in the index is still listed. */
  lemma IndexedIsListed(cfg: Config, s: State, planNow: Time, bs: set<Blob>, p: Pack)
    requires IndexView(cfg, s, planNow, bs) && p in IndexedIn(bs)
    ensures Listed(s.objs, p)
  {
    var b :| b in bs && EffectiveIn(bs, b) && p in b.packs;
    assert Effective(s.objs, b);
  }

  lemma ListingKeepsSnaps(cfg: Config, s: State, s': State)
    requires SnapsInv(cfg, s) && s.prune.Walked? && s'.prune.Walked?
    requires s' == s.(prune := s.prune.(listed := s'.prune.listed, kinds := s'.prune.kinds))
    ensures SnapsInv(cfg, s')
  {
    forall t | t in LiveTrees(s'.snaps)
      ensures TreeSafe(cfg, s', t) && forall c | c in t.chunks :: ChunkSafe(cfg, s', c)
    {
      assert TreeSafe(cfg, s, t);
      forall c | c in t.chunks ensures ChunkSafe(cfg, s', c) {
        assert ChunkSafe(cfg, s, c);
      }
    }
  }

  lemma ListingKeepsPrune(cfg: Config, s: State, kind: Kind)
    requires PruneInv(cfg, s) && NoPhantoms(s.objs) && EnabledPrune(cfg, s, PList(kind))
    ensures PruneInv(cfg, ApplyPrune(cfg, s, PList(kind)))
  {
    hide IndexView, IndexedIn, Listed;
    var s' := ApplyPrune(cfg, s, PList(kind));
    IndexViewKept(cfg, s, s', s.prune.planNow, s.prune.blobs);
    forall p | p in IndexedIn(s.prune.blobs) ensures PackObj(p) in s.objs {
      IndexedIsListed(cfg, s, s.prune.planNow, s.prune.blobs, p);
    }
  }

  lemma StepPList(cfg: Config, s: State, kind: Kind)
    requires Safe(cfg, s) && EnabledPrune(cfg, s, PList(kind))
    ensures Safe(cfg, ApplyPrune(cfg, s, PList(kind)))
  {
    hide SnapsInv, PruneInv, NoPhantoms, BackupsInv;
    var s' := ApplyPrune(cfg, s, PList(kind));
    ListingKeepsPrune(cfg, s, kind);
    ListingKeepsSnaps(cfg, s, s');
    StepPlanning(cfg, s, s'.prune, s');
  }

  /** Every chunk that has a holder has one that is chosen for it. */
  lemma SomeHolderIsChosen(marks: map<Obj, Time>, ps: set<Pack>, cs: set<Chunk>, c: Chunk)
    requires c in cs && Holder(ps, c)
    ensures Holder(NeededPacks(marks, ps, cs), c)
  {
    var p :| p in ps && c in p.chunks;
    assert p.name in HolderNames(ps, c);
    CanonicalExists(MarkedNames(marks), HolderNames(ps, c));
    var n :| IsCanonical(MarkedNames(marks), HolderNames(ps, c), n);
    var q :| q in ps && c in q.chunks && q.name == n;
    assert ChosenFor(marks, ps, c, q);
    assert q in NeededPacks(marks, ps, cs);
  }

  lemma DecisionKeepsPrune(cfg: Config, s: State, blocked: set<Obj>, repack: set<Pack>, s': State)
    requires PruneInv(cfg, s) && EnabledPrune(cfg, s, PDecide(blocked, repack))
    requires s' == ApplyPrune(cfg, s, PDecide(blocked, repack))
    ensures PruneInv(cfg, s')
  {
    hide Needed, IndexedIn, IndexView, Holdable;
    IndexViewKept(cfg, s, s', s.prune.planNow, s.prune.blobs);
  }

  lemma DecisionKeepsSnaps(cfg: Config, s: State, blocked: set<Obj>, repack: set<Pack>, s': State)
    requires PruneInv(cfg, s) && SnapsInv(cfg, s) && EnabledPrune(cfg, s, PDecide(blocked, repack))
    requires s' == ApplyPrune(cfg, s, PDecide(blocked, repack))
    ensures SnapsInv(cfg, s')
  {
    hide IndexView, IndexedIn, Effective, EffectiveIn, ChosenFor;
    forall t | t in LiveTrees(s'.snaps)
      ensures TreeSafe(cfg, s', t) && forall c | c in t.chunks :: ChunkSafe(cfg, s', c)
    {
      assert TreeSafe(cfg, s, t);
      forall c | c in t.chunks ensures ChunkSafe(cfg, s', c) {
        assert ChunkSafe(cfg, s, c);
        DecisionKeepsChunk(cfg, s, blocked, repack, s', c);
      }
    }
  }

  lemma DecisionKeepsChunk(cfg: Config, s: State, blocked: set<Obj>, repack: set<Pack>, s': State, c: Chunk)
    requires PruneInv(cfg, s) && ChunkSafe(cfg, s, c) && EnabledPrune(cfg, s, PDecide(blocked, repack))
    requires s' == ApplyPrune(cfg, s, PDecide(blocked, repack))
    ensures ChunkSafe(cfg, s', c)
  {
    hide IndexView, IndexedIn, Effective, EffectiveIn, ChosenFor, Listed;
    var w := s.prune;
    var p;
    if c in w.referenced {
      SomeHolderIsChosen(s.marks, Holdable(w), w.referenced, c);
      p :| p in Needed(s) && c in p.chunks;
      IndexedIsListed(cfg, s, w.planNow, w.blobs, p);
    } else {
      p :| Listed(s.objs, p) && c in p.chunks && !Expired(cfg, s, w.planNow, PackObj(p));
    }
    assert !Condemned(s'.prune, PackObj(p));
  }

  lemma StepPDecide(cfg: Config, s: State, blocked: set<Obj>, repack: set<Pack>)
    requires Safe(cfg, s) && EnabledPrune(cfg, s, PDecide(blocked, repack))
    ensures Safe(cfg, ApplyPrune(cfg, s, PDecide(blocked, repack)))
  {
    hide SnapsInv, PruneInv, NoPhantoms, BackupsInv, Needed;
    var s' := ApplyPrune(cfg, s, PDecide(blocked, repack));
    DecisionKeepsPrune(cfg, s, blocked, repack, s');
    DecisionKeepsSnaps(cfg, s, blocked, repack, s');
    StepPlanning(cfg, s, s'.prune, s');
  }

  /** A chunk prune has not lost sight of is listed in some pack. */
  lemma WalkedChunkListed(cfg: Config, s: State, c: Chunk)
    requires PruneInv(cfg, s) && ChunkSafe(cfg, s, c)
    ensures exists p :: Listed(s.objs, p) && c in p.chunks
  {
    if s.prune.Walked? && c in s.prune.referenced {
      var p :| p in IndexedIn(s.prune.blobs) && c in p.chunks;
      IndexedIsListed(cfg, s, s.prune.planNow, s.prune.blobs, p);
    }
  }

  /** Prune is over; it has its memory no longer. */
  lemma Finished(cfg: Config, s: State, s': State)
    requires Safe(cfg, s) && s' == s.(prune := Idle)
    ensures Safe(cfg, s')
  {
    hide NoPhantoms, BackupsInv, PruneInv, Listed;
    forall t | t in LiveTrees(s'.snaps)
      ensures TreeSafe(cfg, s', t) && forall c | c in t.chunks :: ChunkSafe(cfg, s', c)
    {
      assert TreeSafe(cfg, s, t);
      forall c | c in t.chunks ensures ChunkSafe(cfg, s', c) {
        WalkedChunkListed(cfg, s, c);
      }
    }
    NoPlan(cfg, s');
    StepPlanning(cfg, s, Idle, s');
  }

  lemma NoPlan(cfg: Config, s: State)
    requires s.prune.Idle?
    ensures PruneInv(cfg, s)
  {
  }

  lemma StepPStop(cfg: Config, s: State)
    requires Safe(cfg, s) && EnabledPrune(cfg, s, PStop)
    ensures Safe(cfg, ApplyPrune(cfg, s, PStop))
  {
    hide Safe;
    Finished(cfg, s, ApplyPrune(cfg, s, PStop));
  }

  /** Prune moves on in its work, condemning nothing more. */
  lemma StepStage(cfg: Config, s: State, plan: Plan, stage: Stage, s': State)
    requires Safe(cfg, s) && s.prune.Running? && s' == s.(prune := Running(plan, stage))
    requires plan.planNow == s.prune.plan.planNow && plan.toDelete == s.prune.plan.toDelete
    requires StageInv(cfg, s', plan, stage)
    requires forall o | Condemned(s'.prune, o) :: Condemned(s.prune, o)
    ensures Safe(cfg, s')
  {
    hide SnapsInv, StageInv, Condemned, NoPhantoms, BackupsInv;
    NothingCondemned(cfg, s, s');
    StepPlanning(cfg, s, s'.prune, s');
  }

  // ---------- prune writes ----------

  /** The new pack is in the store; prune has not noted it yet. */
  lemma PackAppears(cfg: Config, s: State, p: Pack, s': State)
    requires History(s) && Safe(cfg, s) && NewName(s, p)
    requires s' == s.(objs := s.objs[PackObj(p) := s.now], used := s.used + {PackObj(p)})
    ensures Safe(cfg, s')
  {
    hide SnapsInv, PruneInv, Gentle, Grown, NewName, History, BackupsInv;
    PackGrows(s, p, s');
    forall k | k in s'.backups ensures Gentle(cfg, s, s', s'.backups[k]) {
      GrownIsGentle(cfg, s, s', s'.backups[k]);
    }
    BackupsKept(cfg, s, s');
    SameBlobs(s.objs, s'.objs);
    GrownKeepsSnaps(cfg, s, s');
    GrownKeepsPrune(cfg, s, s');
  }

  lemma PackIsNoted(cfg: Config, s: State, p: Pack, stage: Stage, s': State)
    requires Safe(cfg, s) && s.prune.Running? && s.prune.stage.Repacking?
    requires PackObj(p) in s.objs && PackObj(p) !in s.marks
    requires stage == Repacking(s.prune.stage.newPacks + {p}) && s' == SetStage(s, stage)
    ensures Safe(cfg, s')
  {
    hide SnapsInv, NoPhantoms, BackupsInv, IndexView;
    IndexViewKept(cfg, s, s', s.prune.plan.planNow, s.prune.plan.blobs);
    StepStage(cfg, s, s.prune.plan, stage, s');
  }

  lemma NewPackIsUnmarked(s: State, p: Pack)
    requires History(s) && NewName(s, p)
    ensures PackObj(p) !in s.marks
  {
  }

  lemma StepPPutPack(cfg: Config, s: State, p: Pack)
    requires History(s) && Safe(cfg, s) && EnabledPrune(cfg, s, PPutPack(p))
    ensures Safe(cfg, ApplyPrune(cfg, s, PPutPack(p)))
  {
    hide Safe, History, NewName;
    var s' := ApplyPrune(cfg, s, PPutPack(p));
    var s1 := s.(objs := s.objs[PackObj(p) := s.now], used := s.used + {PackObj(p)});
    NewPackIsUnmarked(s, p);
    PackAppears(cfg, s, p, s1);
    PackIsNoted(cfg, s1, p, s'.prune.stage, s');
  }

  /** Prune's rewritten index, before it is written. */
  ghost predicate Rewrite(cfg: Config, s: State, n: Blob) {
    && s.prune.Running? && s.prune.stage.Repacking? && StageInv(cfg, s, s.prune.plan, s.prune.stage)
    && n.packs == s.prune.stage.newPacks + (IndexedIn(s.prune.plan.blobs) - DeletedPacks(s.prune.plan))
    && n.supersedes == s.prune.plan.blobs
  }

  /** The index once the rewritten blob is stored. */
  ghost predicate Rewritten(s: State, n: Blob, objs': map<Obj, Time>) {
    && objs' == s.objs[IndexObj(n) := s.now]
    && forall b :: Effective(objs', b) <==> b == n || (Effective(s.objs, b) && b !in n.supersedes)
  }

  /** The rewritten index lists every pack that is not about to be deleted. */
  lemma RewriteKeepsListed(cfg: Config, s: State, n: Blob, objs': map<Obj, Time>, p: Pack)
    requires Rewrite(cfg, s, n) && Rewritten(s, n, objs')
    requires Listed(s.objs, p) && PackObj(p) !in s.prune.plan.toDelete
    ensures Listed(objs', p)
  {
    hide Effective;
    var bs := s.prune.plan.blobs;
    var b :| Effective(s.objs, b) && p in b.packs;
    if b in bs {
      assert EffectiveIn(bs, b) && p in IndexedIn(bs);
      assert Effective(objs', n) && p in n.packs;
    } else {
      assert Effective(objs', b);
    }
  }

  /** ... and nothing that is. */
  lemma RewriteDropsCondemned(cfg: Config, s: State, n: Blob, objs': map<Obj, Time>, p: Pack)
    requires Rewrite(cfg, s, n) && Rewritten(s, n, objs') && PackObj(p) in s.prune.plan.toDelete
    requires forall q | q in s.prune.stage.newPacks :: PackObj(q) !in s.marks
    ensures !Listed(objs', p)
  {
    hide Effective;
    assert Expired(cfg, s, s.prune.plan.planNow, PackObj(p));
    assert p in IndexedIn(s.prune.plan.blobs) ==> p in DeletedPacks(s.prune.plan);
    forall b | Effective(objs', b) ensures p !in b.packs {
      if b != n {
        assert IndexObj(b) in s.objs by { EffectiveIsStored(s.objs, b); }
      }
    }
  }

  lemma EffectiveIsStored(objs: map<Obj, Time>, b: Blob)
    requires Effective(objs, b)
    ensures IndexObj(b) in objs
  {
  }

  lemma RewriteKeepsNoPhantoms(cfg: Config, s: State, n: Blob, objs': map<Obj, Time>)
    requires NoPhantoms(s.objs) && Rewrite(cfg, s, n) && Rewritten(s, n, objs')
    ensures NoPhantoms(objs')
  {
    hide Effective;
    forall p | Listed(objs', p) ensures PackObj(p) in objs' {
      var b :| Effective(objs', b) && p in b.packs;
      if b != n {
        assert Listed(s.objs, p);
      } else if p in IndexedIn(s.prune.plan.blobs) {
        IndexedIsListed(cfg, s, s.prune.plan.planNow, s.prune.plan.blobs, p);
      }
    }
  }

  /** A viable backup's packs are not in the plan. */
  lemma BackupPackNotPlanned(cfg: Config, s: State, b: Backup, p: Pack)
    requires Clock(s) && s.prune.Running? && s.prune.stage.Repacking?
    requires PlanMarks(cfg, s, s.prune.plan, s.prune.plan.toDelete.Keys)
    requires BackupFacts(cfg, s, b) && BackupSafe(s, b) && Viable(cfg, s, b) && p in b.avail + b.own
    ensures PackObj(p) !in s.prune.plan.toDelete
  {
    NotCondemned(cfg, s, b, s.prune.plan.planNow, PackObj(p));
  }

  lemma RewriteIsGentle(cfg: Config, s: State, n: Blob, s': State, b: Backup)
    requires Clock(s) && Rewrite(cfg, s, n) && Rewritten(s, n, s'.objs)
    requires s' == s.(objs := s'.objs, used := s.used + {IndexObj(n)}, prune := s'.prune)
    requires BackupFacts(cfg, s, b) && (Viable(cfg, s, b) ==> BackupSafe(s, b))
    ensures Gentle(cfg, s, s', b)
  {
    hide BackupFacts, BackupSafe, Listed, IndexView, Effective;
    if Viable(cfg, s', b) {
      forall p | p in b.avail + b.own && Listed(s.objs, p) ensures Listed(s'.objs, p) {
        BackupPackNotPlanned(cfg, s, b, p);
        RewriteKeepsListed(cfg, s, n, s'.objs, p);
      }
    }
  }

  lemma RewriteKeepsBackups(cfg: Config, s: State, n: Blob, s': State)
    requires Clock(s) && BackupsInv(cfg, s) && Rewrite(cfg, s, n) && Rewritten(s, n, s'.objs)
    requires s' == s.(objs := s'.objs, used := s.used + {IndexObj(n)}, prune := s'.prune)
    ensures BackupsInv(cfg, s')
  {
    hide Clock, Rewrite, Rewritten, Gentle, BackupFacts, BackupSafe;
    forall k | k in s'.backups ensures Gentle(cfg, s, s', s'.backups[k]) {
      RewriteIsGentle(cfg, s, n, s', s.backups[k]);
    }
    BackupsKept(cfg, s, s');
  }

  lemma RewriteKeepsSnaps(cfg: Config, s: State, n: Blob, s': State)
    requires SnapsInv(cfg, s) && Rewrite(cfg, s, n) && Rewritten(s, n, s'.objs)
    requires s' == s.(objs := s'.objs, used := s.used + {IndexObj(n)}, prune := s'.prune)
    requires s'.prune.Running? && s'.prune.plan.toDelete == s.prune.plan.toDelete
    requires s'.prune.stage == FirstDeleting(s.prune.plan)
    ensures SnapsInv(cfg, s')
  {
    hide Effective, Listed, Rewrite, Rewritten;
    StillRepacking(cfg, s, n);
    forall t | t in LiveTrees(s'.snaps)
      ensures TreeSafe(cfg, s', t) && forall c | c in t.chunks :: ChunkSafe(cfg, s', c)
    {
      assert TreeSafe(cfg, s, t) && s'.objs == s.objs[IndexObj(n) := s.now] by { ObjsRewritten(s, n, s'.objs); }
      forall c | c in t.chunks ensures ChunkSafe(cfg, s', c) {
        assert ChunkSafe(cfg, s, c);
        var p :| Listed(s.objs, p) && c in p.chunks && !Condemned(s.prune, PackObj(p));
        RewriteKeepsListed(cfg, s, n, s'.objs, p);
        assert !Condemned(s'.prune, PackObj(p));
      }
    }
  }

  lemma ObjsRewritten(s: State, n: Blob, objs': map<Obj, Time>)
    requires Rewritten(s, n, objs')
    ensures objs' == s.objs[IndexObj(n) := s.now]
  {
  }

  lemma StillRepacking(cfg: Config, s: State, n: Blob)
    requires Rewrite(cfg, s, n)
    ensures s.prune.Running? && s.prune.stage.Repacking?
  {
  }

  lemma RewriteStage(cfg: Config, s: State, n: Blob, plan: Plan, s': State)
    requires Rewrite(cfg, s, n) && Rewritten(s, n, s'.objs)
    requires s' == s.(objs := s'.objs, used := s.used + {IndexObj(n)}, prune := s'.prune)
    requires plan.planNow == s.prune.plan.planNow && plan.toDelete == s.prune.plan.toDelete
    ensures StageInv(cfg, s', plan, FirstDeleting(s.prune.plan))
  {
    hide Effective, Listed, IndexView;
    forall p | PackObj(p) in plan.toDelete ensures !Listed(s'.objs, p) {
      RewriteDropsCondemned(cfg, s, n, s'.objs, p);
    }
  }

  lemma StepPWriteIndex(cfg: Config, s: State, nonce: nat, failed: set<Pack>)
    requires IndexInv(s) && Safe(cfg, s) && EnabledPrune(cfg, s, PWriteIndex(nonce, failed))
    ensures Safe(cfg, ApplyPrune(cfg, s, PWriteIndex(nonce, failed)))
  {
    hide Repacked, NeedsRewrite, BackupsInv, SnapsInv, NoPhantoms, Effective, IndexView, Supersession, PlanMarks;
    var s' := ApplyPrune(cfg, s, PWriteIndex(nonce, failed));
    var n := NewIndex(s.prune.plan, s.prune.stage.newPacks, nonce);
    AddBlob(s, n, s'.objs);
    assert Rewrite(cfg, s, n) && Rewritten(s, n, s'.objs);
    RewriteAll(cfg, s, n, s'.prune.plan, s');
  }

  lemma RewriteAll(cfg: Config, s: State, n: Blob, plan: Plan, s': State)
    requires Safe(cfg, s) && Rewrite(cfg, s, n) && Rewritten(s, n, s'.objs)
    requires s' == s.(objs := s'.objs, used := s.used + {IndexObj(n)},
                      prune := Running(plan, FirstDeleting(s.prune.plan)))
    requires plan.planNow == s.prune.plan.planNow && plan.toDelete == s.prune.plan.toDelete
    ensures Safe(cfg, s')
  {
    hide BackupsInv, SnapsInv, NoPhantoms, Rewrite, Rewritten, StageInv;
    StillRepacking(cfg, s, n);
    RewriteStage(cfg, s, n, plan, s');
    RewriteKeepsNoPhantoms(cfg, s, n, s'.objs);
    RewriteKeepsBackups(cfg, s, n, s');
    RewriteKeepsSnaps(cfg, s, n, s');
    ObjsRewritten(s, n, s'.objs);
  }

  /** With nothing to take out, no condemned pack is listed. */
  lemma KeptDropsCondemned(cfg: Config, s: State, p: Pack)
    requires s.prune.Running? && s.prune.stage.Repacking? && StageInv(cfg, s, s.prune.plan, s.prune.stage)
    requires DeletedPacks(s.prune.plan) == {} && PackObj(p) in s.prune.plan.toDelete
    ensures !Listed(s.objs, p)
  {
    var plan := s.prune.plan;
    assert Expired(cfg, s, plan.planNow, PackObj(p));
    assert p !in DeletedPacks(plan);
    assert p !in IndexedIn(plan.blobs);
  }

  lemma StepPKeepIndex(cfg: Config, s: State, failed: set<Pack>)
    requires Safe(cfg, s) && EnabledPrune(cfg, s, PKeepIndex(failed))
    ensures Safe(cfg, ApplyPrune(cfg, s, PKeepIndex(failed)))
  {
    hide Repacked, BackupsInv, SnapsInv, NoPhantoms, Listed, DeletedPacks, EffectiveOf, IndexView;
    var s' := ApplyPrune(cfg, s, PKeepIndex(failed));
    var plan := s.prune.plan;
    forall p | PackObj(p) in plan.toDelete ensures !Listed(s.objs, p) {
      KeptDropsCondemned(cfg, s, p);
    }
    StepStage(cfg, s, s'.prune.plan, FirstDeleting(plan), s');
  }

  // ---------- prune deletes ----------

  /** Some objects are decided; none is added. */
  lemma StepFewerTargets(cfg: Config, s: State, g: Stage, s': State)
    requires Safe(cfg, s) && s.prune.Running? && s.prune.stage.Deleting? && g.Deleting?
    requires g.pending + g.cleared <= s.prune.stage.pending + s.prune.stage.cleared
    requires g.touchDel == s.prune.stage.touchDel && s' == SetStage(s, g)
    ensures Safe(cfg, s')
  {
    hide BackupsInv, SnapsInv, NoPhantoms, Listed;
    assert StageInv(cfg, s', s.prune.plan, g);
    assert forall o | o in g.pending || o in g.cleared :: o in g.pending + g.cleared;
    StepStage(cfg, s, s.prune.plan, g, s');
  }

  lemma StepPCheck(cfg: Config, s: State, o: Obj)
    requires Safe(cfg, s) && EnabledPrune(cfg, s, PCheck(o))
    ensures Safe(cfg, ApplyPrune(cfg, s, PCheck(o)))
  {
    hide Safe, Evidence;
    var s' := ApplyPrune(cfg, s, PCheck(o));
    StepFewerTargets(cfg, s, s'.prune.stage, s');
  }

  lemma StepPSkip(cfg: Config, s: State, o: Obj)
    requires Safe(cfg, s) && EnabledPrune(cfg, s, PSkip(o))
    ensures Safe(cfg, ApplyPrune(cfg, s, PSkip(o)))
  {
    hide Safe;
    var s' := ApplyPrune(cfg, s, PSkip(o));
    StepFewerTargets(cfg, s, s'.prune.stage, s');
  }

  /** What a cleared object can still be: nothing a snapshot, a viable backup or the index needs. */
  ghost predicate Disposable(cfg: Config, s: State, o: Obj) {
    && (o.PackObj? ==> !Listed(s.objs, o.pack))
    && (o.IndexObj? ==> !Effective(s.objs, o.blob))
    && (o.TreeObj? ==> o.tree !in LiveTrees(s.snaps))
    && (forall k | k in s.backups && Viable(cfg, s, s.backups[k]) ::
          && (o.PackObj? ==> o.pack !in s.backups[k].own)
          && (o.TreeObj? ==> o.tree !in s.backups[k].confirmed)
          && (o.TreeObj? && o.tree in s.backups[k].seen ==> o in s.backups[k].marksAtStart))
  }

  /** A viable backup does not rely on an object whose mark expired before the plan. */
  lemma NotReliedOn(cfg: Config, s: State, b: Backup, planNow: Time, o: Obj)
    requires BackupFacts(cfg, s, b) && BackupSafe(s, b) && Viable(cfg, s, b) && planNow <= s.now
    requires Expired(cfg, s, planNow, o) && !Evidence(s, o, s.marks[o])
    ensures o.PackObj? ==> o.pack !in b.own
    ensures o.TreeObj? ==> o.tree !in b.confirmed
    ensures o.TreeObj? && o.tree in b.seen ==> o in b.marksAtStart
  {
    if o !in b.marksAtStart && !b.phase.Started? {
      NotCondemned(cfg, s, b, planNow, o);
    }
  }

  /** What prune knows of an object it is about to delete. */
  lemma ClearedIsExpired(cfg: Config, s: State, o: Obj)
    requires Safe(cfg, s) && PruneListing(s) && EnabledPrune(cfg, s, PDelete(o)) && DeleteStillDead(s, PDelete(o))
    ensures Expired(cfg, s, s.prune.plan.planNow, o) && !Evidence(s, o, s.marks[o])
    ensures o.PackObj? ==> !Listed(s.objs, o.pack)
    ensures o.IndexObj? ==> !Effective(s.objs, o.blob)
    ensures Condemned(s.prune, o) && s.marks[o] == s.prune.plan.toDelete[o]
  {
    hide SnapsInv, BackupsInv, NoPhantoms, Listed, Effective, Evidence;
    assert o in s.prune.stage.pending + s.prune.stage.cleared;
  }

  lemma ClearedIsDisposable(cfg: Config, s: State, o: Obj)
    requires IndexInv(s) && Safe(cfg, s) && EnabledPrune(cfg, s, PDelete(o)) && DeleteStillDead(s, PDelete(o))
    ensures Disposable(cfg, s, o)
  {
    hide History, Supersession, PruneListing, NoPhantoms, PruneInv, Listed, Effective, Evidence, DeleteStillDead, Expired;
    ClearedIsExpired(cfg, s, o);
    forall t | t in LiveTrees(s.snaps) ensures o != TreeObj(t) {
      assert TreeSafe(cfg, s, t);
    }
    forall k | k in s.backups && Viable(cfg, s, s.backups[k])
      ensures o.PackObj? ==> o.pack !in s.backups[k].own
      ensures o.TreeObj? ==> o.tree !in s.backups[k].confirmed
      ensures o.TreeObj? && o.tree in s.backups[k].seen ==> o in s.backups[k].marksAtStart
    {
      NotReliedOn(cfg, s, s.backups[k], s.prune.plan.planNow, o);
    }
  }

  lemma DeleteKeepsIndex(cfg: Config, s: State, o: Obj)
    requires Supersession(s.objs) && NoPhantoms(s.objs) && Disposable(cfg, s, o)
    ensures forall b :: Effective(s.objs - {o}, b) <==> Effective(s.objs, b)
    ensures forall p :: Listed(s.objs - {o}, p) <==> Listed(s.objs, p)
    ensures NoPhantoms(s.objs - {o})
  {
    DropOther(s.objs, o);
  }

  lemma DeleteIsGentle(cfg: Config, s: State, o: Obj, s': State, b: Backup)
    requires Supersession(s.objs) && NoPhantoms(s.objs) && Disposable(cfg, s, o)
    requires s' == s.(objs := s.objs - {o}, prune := s'.prune) && (exists k :: k in s.backups && s.backups[k] == b)
    ensures Gentle(cfg, s, s', b)
  {
    hide Supersession, NoPhantoms, Listed;
    DeleteKeepsIndex(cfg, s, o);
  }

  lemma DeleteKeepsBackups(cfg: Config, s: State, o: Obj, s': State)
    requires Clock(s) && BackupsInv(cfg, s) && Supersession(s.objs) && NoPhantoms(s.objs) && Disposable(cfg, s, o)
    requires s' == s.(objs := s.objs - {o}, prune := s'.prune)
    ensures BackupsInv(cfg, s')
  {
    hide Supersession, NoPhantoms, Listed, Gentle, Disposable, Clock;
    forall k | k in s'.backups ensures Gentle(cfg, s, s', s'.backups[k]) {
      DeleteIsGentle(cfg, s, o, s', s'.backups[k]);
    }
    BackupsKept(cfg, s, s');
  }

  lemma DeleteKeepsSnaps(cfg: Config, s: State, o: Obj, s': State)
    requires Supersession(s.objs) && NoPhantoms(s.objs) && SnapsInv(cfg, s) && Disposable(cfg, s, o)
    requires s' == s.(objs := s.objs - {o}, prune := s'.prune) && !s.prune.Walked? && !s'.prune.Walked?
    requires forall x | Condemned(s'.prune, x) :: Condemned(s.prune, x) && s'.prune.plan == s.prune.plan
    ensures SnapsInv(cfg, s')
  {
    hide Supersession, NoPhantoms, Listed, Condemned;
    DeleteKeepsIndex(cfg, s, o);
    forall t | t in LiveTrees(s'.snaps)
      ensures TreeSafe(cfg, s', t) && forall c | c in t.chunks :: ChunkSafe(cfg, s', c)
    {
      assert TreeSafe(cfg, s, t);
      forall c | c in t.chunks ensures ChunkSafe(cfg, s', c) {
        assert ChunkSafe(cfg, s, c);
      }
    }
  }

  lemma StepPDelete(cfg: Config, s: State, o: Obj)
    requires IndexInv(s) && Safe(cfg, s) && EnabledPrune(cfg, s, PDelete(o)) && DeleteStillDead(s, PDelete(o))
    ensures Safe(cfg, ApplyPrune(cfg, s, PDelete(o)))
  {
    hide Supersession, BackupsInv, SnapsInv, NoPhantoms, Disposable, Listed, Effective, Evidence;
    var s' := ApplyPrune(cfg, s, PDelete(o));
    ClearedIsDisposable(cfg, s, o);
    DeleteKeepsIndex(cfg, s, o);
    DeleteKeepsBackups(cfg, s, o, s');
    DeleteKeepsSnaps(cfg, s, o, s');
    assert StageInv(cfg, s', s.prune.plan, s'.prune.stage) by { DeleteKeepsStage(cfg, s, o, s'); }
  }

  lemma DeleteKeepsStage(cfg: Config, s: State, o: Obj, s': State)
    requires EnabledPrune(cfg, s, PDelete(o)) && s' == ApplyPrune(cfg, s, PDelete(o))
    requires StageInv(cfg, s, s.prune.plan, s.prune.stage)
    requires forall p :: Listed(s'.objs, p) <==> Listed(s.objs, p)
    ensures StageInv(cfg, s', s.prune.plan, s'.prune.stage)
  {
    hide Listed;
  }

  /** Removing a touch that no mark is measured against. */
  lemma TouchGoneKeepsTree(cfg: Config, s: State, t: Tree, s': State, u: Tree)
    requires TouchFree(s, {t}) && TreeSafe(cfg, s, u) && s.prune.Running? && s'.prune.Running?
    requires s' == s.(touches := s.touches - {t}, prune := s'.prune) && s'.prune.plan == s.prune.plan
    requires PlanMarks(cfg, s, s.prune.plan, set o | o in s.prune.plan.toDelete && Condemned(s'.prune, o))
    requires forall o | Condemned(s'.prune, o) :: Condemned(s.prune, o)
    ensures TreeSafe(cfg, s', u)
  {
  }

  lemma TouchGoneIsGentle(cfg: Config, s: State, t: Tree, s': State, b: Backup)
    requires TouchFree(s, {t}) && s' == s.(touches := s.touches - {t}, prune := s'.prune)
    ensures Gentle(cfg, s, s', b)
  {
  }

  lemma TouchGoneKeepsSnaps(cfg: Config, s: State, t: Tree, s': State)
    requires SnapsInv(cfg, s) && TouchFree(s, {t}) && s.prune.Running? && s'.prune.Running?
    requires s' == s.(touches := s.touches - {t}, prune := s'.prune) && s'.prune.plan == s.prune.plan
    requires PlanMarks(cfg, s, s.prune.plan, set o | o in s.prune.plan.toDelete && Condemned(s'.prune, o))
    requires forall o | Condemned(s'.prune, o) :: Condemned(s.prune, o)
    ensures SnapsInv(cfg, s')
  {
    hide Listed, TouchFree, PlanMarks, TreeSafe, Condemned;
    forall u | u in LiveTrees(s'.snaps)
      ensures TreeSafe(cfg, s', u) && forall c | c in u.chunks :: ChunkSafe(cfg, s', c)
    {
      TouchGoneKeepsTree(cfg, s, t, s', u);
      forall c | c in u.chunks ensures ChunkSafe(cfg, s', c) {
        assert ChunkSafe(cfg, s, c);
      }
    }
  }

  lemma StepTouchGone(cfg: Config, s: State, t: Tree, stage: Stage, s': State)
    requires Safe(cfg, s) && s.prune.Running? && TouchFree(s, {t})
    requires s' == s.(touches := s.touches - {t}, prune := s.prune.(stage := stage))
    requires StageInv(cfg, s', s.prune.plan, stage)
    requires PlanMarks(cfg, s, s.prune.plan, set o | o in s.prune.plan.toDelete && Condemned(s'.prune, o))
    requires forall o | Condemned(s'.prune, o) :: Condemned(s.prune, o)
    ensures Safe(cfg, s')
  {
    hide SnapsInv, BackupsInv, NoPhantoms, StageInv, Condemned, TouchFree, PlanMarks, Gentle;
    forall k | k in s'.backups ensures Gentle(cfg, s, s', s'.backups[k]) {
      TouchGoneIsGentle(cfg, s, t, s', s'.backups[k]);
    }
    BackupsKept(cfg, s, s');
    TouchGoneKeepsSnaps(cfg, s, t, s');
  }

  lemma StepPDeleteTouch(cfg: Config, s: State, t: Tree)
    requires Safe(cfg, s) && EnabledPrune(cfg, s, PDeleteTouch(t))
    ensures Safe(cfg, ApplyPrune(cfg, s, PDeleteTouch(t)))
  {
    hide SnapsInv, BackupsInv, NoPhantoms, Listed;
    var s' := ApplyPrune(cfg, s, PDeleteTouch(t));
    assert StageInv(cfg, s', s.prune.plan, s'.prune.stage);
    StepTouchGone(cfg, s, t, s'.prune.stage, s');
  }

  lemma StepPSweep(cfg: Config, s: State, t: Tree)
    requires Safe(cfg, s) && EnabledPrune(cfg, s, PSweep(t))
    ensures Safe(cfg, ApplyPrune(cfg, s, PSweep(t)))
  {
    hide SnapsInv, BackupsInv, NoPhantoms, Listed;
    var s' := ApplyPrune(cfg, s, PSweep(t));
    StepTouchGone(cfg, s, t, s'.prune.stage, s');
  }

  // ---------- prune and its marks ----------

  lemma MarksAreGentle(cfg: Config, s: State, s': State, b: Backup)
    requires s' == s.(marks := s'.marks, prune := s'.prune)
    requires forall o | o in s'.marks :: (o in s.marks && s'.marks[o] == s.marks[o]) || s'.marks[o] == s.now
    requires b.started <= s.now
    ensures Gentle(cfg, s, s', b)
  {
  }

  lemma StepMarks(cfg: Config, s: State, stage: Stage, s': State)
    requires Safe(cfg, s) && s.prune.Running?
    requires s.prune.stage.Unmarking? || s.prune.stage.Marking?
    requires stage.Unmarking? || (stage.Marking? && stage.mark <= s.prune.plan.toMark)
    requires s' == s.(marks := s'.marks, prune := s.prune.(stage := stage))
    requires forall o | o in s'.marks :: (o in s.marks && s'.marks[o] == s.marks[o]) || s'.marks[o] == s.now
    ensures Safe(cfg, s')
  {
    hide SnapsInv, BackupsInv, NoPhantoms, Gentle;
    forall k | k in s'.backups ensures Gentle(cfg, s, s', s'.backups[k]) {
      MarksAreGentle(cfg, s, s', s'.backups[k]);
    }
    BackupsKept(cfg, s, s');
    NothingCondemned(cfg, s, s');
  }

  lemma StepPUnmark(cfg: Config, s: State, o: Obj)
    requires Safe(cfg, s) && EnabledPrune(cfg, s, PUnmark(o))
    ensures Safe(cfg, ApplyPrune(cfg, s, PUnmark(o)))
  {
    hide Safe;
    var s' := ApplyPrune(cfg, s, PUnmark(o));
    StepMarks(cfg, s, s'.prune.stage, s');
  }

  lemma StepPMark(cfg: Config, s: State, o: Obj)
    requires Safe(cfg, s) && EnabledPrune(cfg, s, PMark(o))
    ensures Safe(cfg, ApplyPrune(cfg, s, PMark(o)))
  {
    hide SnapsInv, BackupsInv, NoPhantoms;
    var s' := ApplyPrune(cfg, s, PMark(o));
    StepMarks(cfg, s, s'.prune.stage, s');
  }

  lemma StepPFindOrphan(cfg: Config, s: State, t: Tree)
    requires Safe(cfg, s) && EnabledPrune(cfg, s, PFindOrphan(t))
    ensures Safe(cfg, ApplyPrune(cfg, s, PFindOrphan(t)))
  {
    hide SnapsInv, BackupsInv, NoPhantoms, Listed;
    var s' := ApplyPrune(cfg, s, PFindOrphan(t));
    StepStage(cfg, s, s.prune.plan, s'.prune.stage, s');
  }

  lemma NextStage(cfg: Config, s: State, stage: Stage, s': State)
    requires Safe(cfg, s) && s.prune.Running? && s' == SetStage(s, stage)
    requires stage.Unmarking? || stage == Marking(s.prune.plan.toMark) || stage == Sweeping({})
    ensures Safe(cfg, s')
  {
    hide Safe;
    StepStage(cfg, s, s.prune.plan, stage, s');
  }

  lemma StepPNext(cfg: Config, s: State)
    requires Safe(cfg, s) && EnabledPrune(cfg, s, PNext)
    ensures Safe(cfg, ApplyPrune(cfg, s, PNext))
  {
    hide Safe;
    var s' := ApplyPrune(cfg, s, PNext);
    if s.prune.stage.Sweeping? {
      Finished(cfg, s, s');
    } else {
      NextStage(cfg, s, s'.prune.stage, s');
    }
  }
}
