/** Every action keeps the invariant. */
module GcSteps {
  import opened Objects
  import opened GcMachine
  import opened GcIndexHistory
  import opened GcInvariant

  // ---------- frames ----------

  /** What one action may do to the store, seen by a backup that is not its subject. */
  ghost predicate Gentle(cfg: Config, s: State, s': State, b: Backup) {
    && s.now <= s'.now
    && s.used <= s'.used
    && (forall o | o in s'.marks :: (o in s.marks && s'.marks[o] == s.marks[o]) || s'.marks[o] == s'.now)
    && (Viable(cfg, s', b) ==>
          && (forall p | p in b.avail + b.own && Listed(s.objs, p) :: Listed(s'.objs, p))
          && (forall p | p in b.own && PackObj(p) in s.objs :: PackObj(p) in s'.objs)
          && (forall t | t in b.seen && TreeObj(t) !in b.marksAtStart && TreeObj(t) in s.objs :: TreeObj(t) in s'.objs)
          && (forall t | t in b.confirmed && Protected(s, b, TreeObj(t)) :: Protected(s', b, TreeObj(t))))
  }

  lemma BackupKept(cfg: Config, s: State, s': State, b: Backup)
    requires BackupFacts(cfg, s, b) && (Viable(cfg, s, b) ==> BackupSafe(s, b))
    requires b.started <= s.now && Gentle(cfg, s, s', b)
    ensures BackupFacts(cfg, s', b) && (Viable(cfg, s', b) ==> BackupSafe(s', b))
  {
  }

  lemma BackupsKept(cfg: Config, s: State, s': State)
    requires Clock(s) && BackupsInv(cfg, s)
    requires forall k | k in s'.backups :: k in s.backups && s'.backups[k] == s.backups[k]
    requires forall k | k in s'.backups :: Gentle(cfg, s, s', s'.backups[k])
    ensures BackupsInv(cfg, s')
  {
    forall k | k in s'.backups
      ensures BackupFacts(cfg, s', s'.backups[k])
      ensures Viable(cfg, s', s'.backups[k]) ==> BackupSafe(s', s'.backups[k])
    {
      BackupKept(cfg, s, s', s.backups[k]);
    }
  }

  /** The store is as before; only the backups, the clock or the history moved. */
  ghost predicate SameStore(s: State, s': State) {
    s'.objs == s.objs && s'.touches == s.touches && s'.marks == s.marks && s'.prune == s.prune
  }

  lemma TreeKept(cfg: Config, s: State, s': State, t: Tree)
    requires TreeSafe(cfg, s, t) && SameStore(s, s')
    ensures TreeSafe(cfg, s', t)
  {
  }

  lemma ChunkKept(cfg: Config, s: State, s': State, c: Chunk)
    requires ChunkSafe(cfg, s, c) && SameStore(s, s')
    ensures ChunkSafe(cfg, s', c)
  {
    if !(s.prune.Walked? && c in s.prune.referenced) {
      var p :|
        && Listed(s.objs, p) && c in p.chunks
        && (s.prune.Walked? ==> !Expired(cfg, s, s.prune.planNow, PackObj(p)))
        && !Condemned(s.prune, PackObj(p));
      assert Listed(s'.objs, p);
    }
  }

  lemma SnapsKept(cfg: Config, s: State, s': State)
    requires SnapsInv(cfg, s) && SameStore(s, s') && LiveTrees(s'.snaps) <= LiveTrees(s.snaps)
    ensures SnapsInv(cfg, s')
  {
    forall t | t in LiveTrees(s'.snaps) ensures TreeSafe(cfg, s', t) {
      TreeKept(cfg, s, s', t);
    }
    forall t, c | t in LiveTrees(s'.snaps) && c in t.chunks ensures ChunkSafe(cfg, s', c) {
      ChunkKept(cfg, s, s', c);
    }
  }

  lemma IndexViewKept(cfg: Config, s: State, s': State, planNow: Time, bs: set<Blob>)
    requires IndexView(cfg, s, planNow, bs) && s'.objs == s.objs && s'.marks == s.marks
    ensures IndexView(cfg, s', planNow, bs)
  {
  }

  lemma PruneKept(cfg: Config, s: State, s': State)
    requires PruneInv(cfg, s) && SameStore(s, s')
    ensures PruneInv(cfg, s')
  {
    match s.prune
    case Loaded(planNow, bs) => IndexViewKept(cfg, s, s', planNow, bs);
    case Walked(planNow, bs, _, _, _, _) => IndexViewKept(cfg, s, s', planNow, bs);
    case Running(plan, stage) =>
      if stage.Repacking? { IndexViewKept(cfg, s, s', plan.planNow, plan.blobs); }
    case Idle =>
  }

  lemma SameIsGentle(cfg: Config, s: State, s': State, b: Backup)
    requires s'.objs == s.objs && s'.touches == s.touches && s'.marks == s.marks
    requires s.now <= s'.now && s.used <= s'.used
    ensures Gentle(cfg, s, s', b)
  {
  }

  // ---------- steps that leave the store alone ----------

  /** Time passes, snapshots are forgotten, backups end. */
  lemma StepQuiet(cfg: Config, s: State, s': State)
    requires Safe(cfg, s) && SameStore(s, s') && s.now <= s'.now && s.used == s'.used
    requires LiveTrees(s'.snaps) <= LiveTrees(s.snaps)
    requires forall k | k in s'.backups :: k in s.backups && s'.backups[k] == s.backups[k]
    ensures Safe(cfg, s')
  {
    hide BackupsInv, SnapsInv, PruneInv, Gentle, LiveTrees, NoPhantoms;
    forall k | k in s'.backups ensures Gentle(cfg, s, s', s'.backups[k]) {
      SameIsGentle(cfg, s, s', s'.backups[k]);
    }
    BackupsKept(cfg, s, s');
    SnapsKept(cfg, s, s');
    PruneKept(cfg, s, s');
  }

  lemma StepTick(cfg: Config, s: State, d: nat)
    requires Safe(cfg, s) && Enabled(cfg, s, Tick(d))
    ensures Safe(cfg, Apply(cfg, s, Tick(d)))
  {
    hide Safe;
    StepQuiet(cfg, s, Apply(cfg, s, Tick(d)));
  }

  lemma StepForget(cfg: Config, s: State, key: nat)
    requires Safe(cfg, s) && Enabled(cfg, s, Forget(key))
    ensures Safe(cfg, Apply(cfg, s, Forget(key)))
  {
    hide Safe;
    StepQuiet(cfg, s, Apply(cfg, s, Forget(key)));
  }

  lemma StepBStop(cfg: Config, s: State, k: nat)
    requires Safe(cfg, s) && EnabledBackup(cfg, s, BStop(k))
    ensures Safe(cfg, ApplyBackup(cfg, s, BStop(k)))
  {
    hide Safe;
    StepQuiet(cfg, s, ApplyBackup(cfg, s, BStop(k)));
  }

  /** One backup changes its own memory only. */
  lemma StepLocal(cfg: Config, s: State, k: nat, b: Backup, s': State)
    requires Safe(cfg, s) && s' == s.(backups := s.backups[k := b])
    requires b.started <= s.now
    requires BackupFacts(cfg, s, b) && (Viable(cfg, s, b) ==> BackupSafe(s, b))
    ensures Safe(cfg, s')
  {
    hide SnapsInv, PruneInv, BackupFacts, BackupSafe, Gentle, NoPhantoms;
    forall j | j in s'.backups
      ensures BackupFacts(cfg, s', s'.backups[j])
      ensures Viable(cfg, s', s'.backups[j]) ==> BackupSafe(s', s'.backups[j])
    {
      SameIsGentle(cfg, s, s', s'.backups[j]);
      BackupKept(cfg, s, s', s'.backups[j]);
    }
    SnapsKept(cfg, s, s');
    PruneKept(cfg, s, s');
  }

  lemma NewBackup(cfg: Config, s: State, b: Backup)
    requires b.phase.Started? && b.marksAtStart == map[] && b.avail == {} && b.refs == {} && b.own == {}
    requires b.seen == {} && b.confirmed == {}
    ensures BackupFacts(cfg, s, b) && BackupSafe(s, b)
  {
  }

  lemma StepBStart(cfg: Config, s: State, k: nat)
    requires Safe(cfg, s) && EnabledBackup(cfg, s, BStart(k))
    ensures Safe(cfg, ApplyBackup(cfg, s, BStart(k)))
  {
    hide Safe, BackupFacts, BackupSafe;
    var s' := ApplyBackup(cfg, s, BStart(k));
    NewBackup(cfg, s, s'.backups[k]);
    StepLocal(cfg, s, k, s'.backups[k], s');
  }

  lemma MarksNoted(cfg: Config, s: State, b: Backup)
    requires History(s) && BackupFacts(cfg, s, b) && b.phase.Started?
    ensures var b' := b.(phase := MarksListed, marksAtStart := s.marks);
            BackupFacts(cfg, s, b') && BackupSafe(s, b')
  {
  }

  lemma StepBListMarks(cfg: Config, s: State, k: nat)
    requires History(s) && Safe(cfg, s) && EnabledBackup(cfg, s, BListMarks(k))
    ensures Safe(cfg, ApplyBackup(cfg, s, BListMarks(k)))
  {
    hide SnapsInv, PruneInv, NoPhantoms, History, BackupFacts, BackupSafe;
    var s' := ApplyBackup(cfg, s, BListMarks(k));
    MarksNoted(cfg, s, s.backups[k]);
    StepLocal(cfg, s, k, s'.backups[k], s');
  }

  lemma ListedPacksAreListed(objs: map<Obj, Time>)
    ensures forall p :: p in ListedPacks(objs) <==> Listed(objs, p)
  {
    forall b ensures EffectiveIn(Blobs(objs), b) <==> Effective(objs, b) {
      assert b in Blobs(objs) <==> IndexObj(b) in objs;
      forall b' ensures b' in Blobs(objs) <==> IndexObj(b') in objs {}
    }
    forall p ensures p in ListedPacks(objs) <==> Listed(objs, p) {
      if Listed(objs, p) {
        var b :| Effective(objs, b) && p in b.packs;
        assert EffectiveIn(Blobs(objs), b);
      }
    }
  }

  lemma IndexNoted(cfg: Config, s: State, b: Backup, avail: set<Pack>)
    requires BackupFacts(cfg, s, b) && b.phase.MarksListed?
    requires forall p | p in avail :: Listed(s.objs, p) && PackObj(p) !in b.marksAtStart
    ensures var b' := b.(phase := Working, avail := avail); BackupFacts(cfg, s, b') && BackupSafe(s, b')
  {
  }

  lemma StepBLoadIndex(cfg: Config, s: State, k: nat)
    requires Safe(cfg, s) && EnabledBackup(cfg, s, BLoadIndex(k))
    ensures Safe(cfg, ApplyBackup(cfg, s, BLoadIndex(k)))
  {
    hide SnapsInv, PruneInv, NoPhantoms, BackupFacts, BackupSafe, ListedPacks, Listed;
    var s' := ApplyBackup(cfg, s, BLoadIndex(k));
    ListedPacksAreListed(s.objs);
    IndexNoted(cfg, s, s.backups[k], s'.backups[k].avail);
    StepLocal(cfg, s, k, s'.backups[k], s');
  }

  lemma ChunkReused(cfg: Config, s: State, b: Backup, c: Chunk, p: Pack)
    requires BackupFacts(cfg, s, b) && b.phase.Working? && p in b.avail && c in p.chunks
    ensures var b' := b.(refs := b.refs + {(c, p)});
            BackupFacts(cfg, s, b') && (BackupSafe(s, b) ==> BackupSafe(s, b'))
  {
  }

  lemma StepBReuse(cfg: Config, s: State, k: nat, c: Chunk, p: Pack)
    requires Safe(cfg, s) && EnabledBackup(cfg, s, BReuse(k, c, p))
    ensures Safe(cfg, ApplyBackup(cfg, s, BReuse(k, c, p)))
  {
    hide SnapsInv, PruneInv, NoPhantoms, BackupFacts, BackupSafe;
    var s' := ApplyBackup(cfg, s, BReuse(k, c, p));
    ChunkReused(cfg, s, s.backups[k], c, p);
    StepLocal(cfg, s, k, s'.backups[k], s');
  }

  /** The backup moves on in the commit gate. */
  lemma AtTheGate(cfg: Config, s: State, b: Backup, b': Backup)
    requires BackupFacts(cfg, s, b) && (Viable(cfg, s, b) ==> BackupSafe(s, b))
    requires Complete(b.phase) && AtGate(b'.phase) && b'.gateTime + cfg.Margin() < b.started + cfg.backupGrace
    requires b' == b.(phase := b'.phase, gateTime := b'.gateTime, gateMarks := b'.gateMarks,
                      reloaded := b'.reloaded, found := b'.found)
    ensures BackupFacts(cfg, s, b') && (Viable(cfg, s, b') ==> BackupSafe(s, b'))
  {
    assert forall c | c in ChunksOf(b.seen) && Covered(b, c) :: Covered(b', c);
  }

  /** Reading the clock, listing the marks, reloading the index, finding packs: the gate only looks. */
  lemma StepGate(cfg: Config, s: State, a: Action)
    requires Safe(cfg, s) && OfBackup(a) && EnabledBackup(cfg, s, a)
    requires a.BGateOpen? || a.BGateMarks? || a.BReload? || a.BFindPack? || a.BVerifyChunks?
    ensures Safe(cfg, ApplyBackup(cfg, s, a))
  {
    hide SnapsInv, PruneInv, BackupFacts, BackupSafe, ChosenFor, GateExpired, ListedPacks;
    var s' := ApplyBackup(cfg, s, a);
    if !a.BGateOpen? { GateTimeKnown(cfg, s, a.k); }
    AtTheGate(cfg, s, s.backups[a.k], s'.backups[a.k]);
    StepLocal(cfg, s, a.k, s'.backups[a.k], s');
  }

  lemma GateTimeKnown(cfg: Config, s: State, k: nat)
    requires BackupsInv(cfg, s) && k in s.backups && AtGate(s.backups[k].phase)
    ensures s.backups[k].gateTime + cfg.Margin() < s.backups[k].started + cfg.backupGrace
  {
    assert BackupFacts(cfg, s, s.backups[k]);
  }

  lemma TreeConfirmed(cfg: Config, s: State, b: Backup, t: Tree)
    requires BackupFacts(cfg, s, b) && (Viable(cfg, s, b) ==> BackupSafe(s, b))
    requires AtGate(b.phase) && Protected(s, b, TreeObj(t))
    ensures var b' := b.(confirmed := b.confirmed + {t});
            BackupFacts(cfg, s, b') && (Viable(cfg, s, b) ==> BackupSafe(s, b'))
  {
    var b' := b.(confirmed := b.confirmed + {t});
    assert forall c | c in ChunksOf(b.seen) && Covered(b, c) :: Covered(b', c);
  }

  lemma GateProtects(cfg: Config, s: State, k: nat, t: Tree)
    requires BackupsInv(cfg, s) && EnabledBackup(cfg, s, BConfirmTree(k, t))
    ensures Protected(s, s.backups[k], TreeObj(t))
  {
    assert BackupFacts(cfg, s, s.backups[k]);
  }

  lemma StepBConfirmTree(cfg: Config, s: State, k: nat, t: Tree)
    requires Safe(cfg, s) && EnabledBackup(cfg, s, BConfirmTree(k, t))
    ensures Safe(cfg, ApplyBackup(cfg, s, BConfirmTree(k, t)))
  {
    hide SnapsInv, PruneInv, BackupFacts, BackupSafe, Protected;
    var s' := ApplyBackup(cfg, s, BConfirmTree(k, t));
    GateProtects(cfg, s, k, t);
    TreeConfirmed(cfg, s, s.backups[k], t);
    StepLocal(cfg, s, k, s'.backups[k], s');
  }

  // ---------- a backup writes ----------

  /** The store gained packs, trees or touches; the index, the marks and the snapshots are as before. */
  ghost predicate Grown(s: State, s': State) {
    && s'.now == s.now && s'.marks == s.marks && s'.snaps == s.snaps && s'.prune == s.prune
    && s.used <= s'.used
    && (forall b :: IndexObj(b) in s'.objs <==> IndexObj(b) in s.objs)
    && (forall o | o in s.objs :: o in s'.objs && s.objs[o] <= s'.objs[o])
    && (forall o | o in s'.objs :: (o in s.objs && s'.objs[o] == s.objs[o]) || s'.objs[o] == s.now)
    && (forall t | t in s.touches :: t in s'.touches && s.touches[t] <= s'.touches[t])
    && (forall t | t in s'.touches :: t in s.touches || s'.touches[t] == s.now)
    && (forall t | t in s'.touches :: s'.touches[t] <= s.now)
  }

  lemma GrownIsGentle(cfg: Config, s: State, s': State, b: Backup)
    requires Grown(s, s')
    ensures Gentle(cfg, s, s', b)
  {
    SameBlobs(s.objs, s'.objs);
  }

  lemma GrownKeepsSnaps(cfg: Config, s: State, s': State)
    requires SnapsInv(cfg, s) && Grown(s, s')
    ensures SnapsInv(cfg, s')
  {
    SameBlobs(s.objs, s'.objs);
    forall t | t in LiveTrees(s'.snaps)
      ensures TreeSafe(cfg, s', t) && forall c | c in t.chunks :: ChunkSafe(cfg, s', c)
    {
      assert TreeSafe(cfg, s, t);
      forall c | c in t.chunks ensures ChunkSafe(cfg, s', c) {
        assert ChunkSafe(cfg, s, c);
      }
    }
  }

  lemma GrownKeepsPrune(cfg: Config, s: State, s': State)
    requires Clock(s) && PruneInv(cfg, s) && Grown(s, s')
    ensures PruneInv(cfg, s')
  {
    match s.prune
    case Loaded(planNow, bs) => GrownKeepsView(cfg, s, s', planNow, bs);
    case Walked(planNow, bs, _, _, _, _) => GrownKeepsView(cfg, s, s', planNow, bs);
    case Running(plan, stage) =>
      match stage {
        case Repacking(_) => GrownKeepsView(cfg, s, s', plan.planNow, plan.blobs);
        case Deleting(_, _, _, _) => SameBlobs(s.objs, s'.objs);
        case _ =>
      }
    case Idle =>
  }

  lemma GrownKeepsView(cfg: Config, s: State, s': State, planNow: Time, bs: set<Blob>)
    requires IndexView(cfg, s, planNow, bs) && Grown(s, s')
    ensures IndexView(cfg, s', planNow, bs)
  {
    SameBlobs(s.objs, s'.objs);
  }

  lemma StepGrown(cfg: Config, s: State, k: nat, b: Backup, s': State)
    requires Safe(cfg, s) && Grown(s, s') && s'.backups == s.backups[k := b]
    requires b.started <= s.now
    requires BackupFacts(cfg, s', b) && (Viable(cfg, s', b) ==> BackupSafe(s', b))
    ensures Safe(cfg, s')
  {
    hide SnapsInv, PruneInv, BackupFacts, BackupSafe, Gentle;
    forall j | j in s'.backups
      ensures BackupFacts(cfg, s', s'.backups[j])
      ensures Viable(cfg, s', s'.backups[j]) ==> BackupSafe(s', s'.backups[j])
    {
      if j != k {
        GrownIsGentle(cfg, s, s', s.backups[j]);
        BackupKept(cfg, s, s', s.backups[j]);
      }
    }
    SameBlobs(s.objs, s'.objs);
    GrownKeepsSnaps(cfg, s, s');
    GrownKeepsPrune(cfg, s, s');
  }

  /** The backup itself, after its own write. */
  lemma WriterKept(cfg: Config, s: State, k: nat, s': State)
    requires Clock(s) && BackupsInv(cfg, s) && Grown(s, s') && k in s.backups
    ensures BackupFacts(cfg, s', s.backups[k])
    ensures Viable(cfg, s', s.backups[k]) ==> BackupSafe(s', s.backups[k])
  {
    hide Grown, Gentle, BackupFacts, BackupSafe;
    GrownIsGentle(cfg, s, s', s.backups[k]);
    BackupKept(cfg, s, s', s.backups[k]);
  }

  lemma PackGrows(s: State, p: Pack, s': State)
    requires NewName(s, p) && Clock(s) && History(s)
    requires s' == s.(objs := s.objs[PackObj(p) := s.now], used := s.used + {PackObj(p)}, backups := s'.backups)
    ensures Grown(s, s')
  {
  }

  lemma StepBPutPack(cfg: Config, s: State, k: nat, p: Pack)
    requires History(s) && Safe(cfg, s) && EnabledBackup(cfg, s, BPutPack(k, p))
    ensures Safe(cfg, ApplyBackup(cfg, s, BPutPack(k, p)))
  {
    hide Grown, SnapsInv, PruneInv, NoPhantoms, BackupFacts, BackupSafe, NewName;
    var s' := ApplyBackup(cfg, s, BPutPack(k, p));
    var b, b' := s.backups[k], s'.backups[k];
    PackGrows(s, p, s');
    WriterKept(cfg, s, k, s');
    NewIsUnknown(cfg, s, k, p);
    NewOwnPack(cfg, s', b, p);
    StepGrown(cfg, s, k, b', s');
  }

  lemma NewIsUnknown(cfg: Config, s: State, k: nat, p: Pack)
    requires BackupsInv(cfg, s) && k in s.backups && NewName(s, p)
    ensures PackObj(p) !in s.backups[k].marksAtStart
  {
    assert BackupFacts(cfg, s, s.backups[k]);
  }

  lemma NewOwnPack(cfg: Config, s: State, b: Backup, p: Pack)
    requires BackupFacts(cfg, s, b) && b.phase.Working?
    requires PackObj(p) in s.objs && PackObj(p) !in b.marksAtStart
    ensures BackupFacts(cfg, s, b.(own := b.own + {p}))
    ensures BackupSafe(s, b) ==> BackupSafe(s, b.(own := b.own + {p}))
  {
  }

  /** A tree was written, or written again, or touched. */
  lemma TreeGrows(s: State, t: Tree, s': State)
    requires Clock(s)
    requires s' == s.(objs := s'.objs, touches := s'.touches, backups := s'.backups)
    requires s'.objs == s.objs || s'.objs == s.objs[TreeObj(t) := s.now]
    requires s'.touches == s.touches || s'.touches == s.touches[t := s.now]
    ensures Grown(s, s')
  {
  }

  lemma StepBPutTree(cfg: Config, s: State, k: nat, t: Tree)
    requires Safe(cfg, s) && EnabledBackup(cfg, s, BPutTree(k, t))
    ensures Safe(cfg, ApplyBackup(cfg, s, BPutTree(k, t)))
  {
    hide Grown, SnapsInv, PruneInv, NoPhantoms, BackupFacts, BackupSafe;
    var s' := ApplyBackup(cfg, s, BPutTree(k, t));
    TreeGrows(s, t, s');
    WriterKept(cfg, s, k, s');
    NewTree(cfg, s', s.backups[k], s'.backups[k], t);
    StepGrown(cfg, s, k, s'.backups[k], s');
  }

  lemma NewTree(cfg: Config, s: State, b: Backup, b': Backup, t: Tree)
    requires BackupFacts(cfg, s, b) && b.phase.Working?
    requires TreeObj(t) in s.objs && t.links <= b.seen
    requires b' == b.(seen := b.seen + {t}, toTouch := b'.toTouch)
    ensures BackupFacts(cfg, s, b')
    ensures BackupSafe(s, b) ==> BackupSafe(s, b')
  {
  }

  /** Overwriting a damaged tree only makes it newer. */
  lemma StepBHealTree(cfg: Config, s: State, k: nat, t: Tree)
    requires Safe(cfg, s) && EnabledBackup(cfg, s, BHealTree(k, t))
    ensures Safe(cfg, ApplyBackup(cfg, s, BHealTree(k, t)))
  {
    hide Grown, SnapsInv, PruneInv, NoPhantoms, BackupFacts, BackupSafe;
    var s' := ApplyBackup(cfg, s, BHealTree(k, t));
    TreeGrows(s, t, s');
    WriterKept(cfg, s, k, s');
    assert s'.backups == s.backups[k := s.backups[k]];
    StepGrown(cfg, s, k, s.backups[k], s');
  }

  lemma StepBTouch(cfg: Config, s: State, k: nat, t: Tree)
    requires Safe(cfg, s) && EnabledBackup(cfg, s, BTouch(k, t))
    ensures Safe(cfg, ApplyBackup(cfg, s, BTouch(k, t)))
  {
    hide Grown, SnapsInv, PruneInv, NoPhantoms, BackupFacts, BackupSafe;
    var s' := ApplyBackup(cfg, s, BTouch(k, t));
    TreeGrows(s, t, s');
    WriterKept(cfg, s, k, s');
    OnlyTouches(cfg, s', s.backups[k], s'.backups[k].toTouch);
    StepGrown(cfg, s, k, s'.backups[k], s');
  }

  lemma OnlyTouches(cfg: Config, s: State, b: Backup, toTouch: set<Tree>)
    requires BackupFacts(cfg, s, b)
    ensures BackupFacts(cfg, s, b.(toTouch := toTouch))
    ensures BackupSafe(s, b) ==> BackupSafe(s, b.(toTouch := toTouch))
  {
    assert forall c | Covered(b, c) :: Covered(b.(toTouch := toTouch), c);
  }

  // ---------- a backup publishes its index ----------

  /** The packs a viable backup wrote cannot be the ones prune waited a grace to delete. */
  lemma OwnPacksNotExpired(cfg: Config, s: State, b: Backup, planNow: Time)
    requires BackupFacts(cfg, s, b) && BackupSafe(s, b) && Viable(cfg, s, b) && planNow <= s.now
    requires !b.phase.Started?
    ensures forall p | p in b.own :: !Expired(cfg, s, planNow, PackObj(p))
  {
    forall p | p in b.own ensures !Expired(cfg, s, planNow, PackObj(p)) {
      NotCondemned(cfg, s, b, planNow, PackObj(p));
    }
  }

  ghost predicate Published(s: State, s': State, b0: Blob) {
    && s'.now == s.now && s'.touches == s.touches && s'.marks == s.marks
    && s'.snaps == s.snaps && s'.prune == s.prune
    && b0.supersedes == {} && IndexObj(b0) !in s.used
    && s'.objs == s.objs[IndexObj(b0) := s.now] && s'.used == s.used + {IndexObj(b0)}
  }

  lemma PublishedKeepsView(cfg: Config, s: State, s': State, b0: Blob, planNow: Time, bs: set<Blob>)
    requires History(s) && Supersession(s.objs) && Published(s, s', b0) && IndexView(cfg, s, planNow, bs)
    requires forall p | p in b0.packs :: !Expired(cfg, s, planNow, PackObj(p))
    ensures IndexView(cfg, s', planNow, bs)
  {
    AddPlainBlob(s, b0, s'.objs);
    assert b0 !in bs;
  }

  lemma PublishedKeepsPrune(cfg: Config, s: State, s': State, b0: Blob)
    requires History(s) && Supersession(s.objs) && PruneInv(cfg, s) && Published(s, s', b0)
    requires !s.prune.Idle? ==> forall p | p in b0.packs :: !Expired(cfg, s, PlanNow(s.prune), PackObj(p))
    ensures PruneInv(cfg, s')
  {
    match s.prune
    case Loaded(planNow, bs) => PublishedKeepsView(cfg, s, s', b0, planNow, bs);
    case Walked(planNow, bs, _, _, _, _) => PublishedKeepsView(cfg, s, s', b0, planNow, bs);
    case Running(plan, stage) =>
      match stage {
        case Repacking(_) => PublishedKeepsView(cfg, s, s', b0, plan.planNow, plan.blobs);
        case Deleting(pending, cleared, _, _) =>
          AddPlainBlob(s, b0, s'.objs);
        case _ =>
      }
    case Idle =>
  }

  lemma PublishedKeepsSnaps(cfg: Config, s: State, s': State, b0: Blob)
    requires History(s) && Supersession(s.objs) && SnapsInv(cfg, s) && Published(s, s', b0)
    ensures SnapsInv(cfg, s')
  {
    AddPlainBlob(s, b0, s'.objs);
    forall t | t in LiveTrees(s'.snaps)
      ensures TreeSafe(cfg, s', t) && forall c | c in t.chunks :: ChunkSafe(cfg, s', c)
    {
      assert TreeSafe(cfg, s, t);
      forall c | c in t.chunks ensures ChunkSafe(cfg, s', c) {
        assert ChunkSafe(cfg, s, c);
      }
    }
  }

  lemma PublishedIsGentle(cfg: Config, s: State, s': State, b0: Blob, b: Backup)
    requires History(s) && Supersession(s.objs) && Published(s, s', b0)
    ensures Gentle(cfg, s, s', b)
    ensures forall p | p in b0.packs :: Listed(s'.objs, p)
  {
    AddPlainBlob(s, b0, s'.objs);
  }

  lemma FinishedBackup(cfg: Config, s: State, b: Backup)
    requires BackupFacts(cfg, s, b) && b.phase.Working?
    requires forall c | c in ChunksOf(b.seen) :: Covered(b, c)
    ensures BackupFacts(cfg, s, b.(phase := Prepared))
    ensures BackupSafe(s, b) && (forall p | p in b.own :: Listed(s.objs, p)) ==>
              BackupSafe(s, b.(phase := Prepared))
  {
    assert forall c | Covered(b, c) :: Covered(b.(phase := Prepared), c);
  }

  lemma PublishedKeepsBackups(cfg: Config, s: State, s': State, k: nat, b0: Blob)
    requires Clock(s) && History(s) && Supersession(s.objs) && BackupsInv(cfg, s) && Published(s, s', b0)
    requires k in s.backups && s.backups[k].phase.Working? && b0.packs == s.backups[k].own
    requires s'.backups == s.backups[k := s.backups[k].(phase := Prepared)]
    requires forall c | c in ChunksOf(s.backups[k].seen) :: Covered(s.backups[k], c)
    ensures BackupsInv(cfg, s')
  {
    forall j | j in s'.backups
      ensures BackupFacts(cfg, s', s'.backups[j])
      ensures Viable(cfg, s', s'.backups[j]) ==> BackupSafe(s', s'.backups[j])
    {
      PublishedIsGentle(cfg, s, s', b0, s.backups[j]);
      BackupKept(cfg, s, s', s.backups[j]);
      if j == k {
        FinishedBackup(cfg, s', s.backups[k]);
      }
    }
  }

  lemma PublishedKeepsIndex(s: State, s': State, b0: Blob)
    requires History(s) && Supersession(s.objs) && NoPhantoms(s.objs) && Published(s, s', b0)
    requires forall p | p in b0.packs :: PackObj(p) in s.objs
    ensures NoPhantoms(s'.objs)
  {
    AddPlainBlob(s, b0, s'.objs);
  }

  lemma PublishedIsSafe(cfg: Config, s: State, s': State, k: nat, b0: Blob)
    requires History(s) && Supersession(s.objs) && Safe(cfg, s) && Published(s, s', b0)
    requires k in s.backups && s.backups[k].phase.Working? && b0.packs == s.backups[k].own
    requires s'.backups == s.backups[k := s.backups[k].(phase := Prepared)]
    requires forall c | c in ChunksOf(s.backups[k].seen) :: Covered(s.backups[k], c)
    requires Viable(cfg, s, s.backups[k])
    ensures Safe(cfg, s')
  {
    hide SnapsInv, PruneInv, Supersession, History, Expired, NoPhantoms, ChunksOf;
    var b := s.backups[k];
    assert BackupFacts(cfg, s, b) && BackupSafe(s, b);
    if !s.prune.Idle? {
      OwnPacksNotExpired(cfg, s, b, PlanNow(s.prune));
    }
    PublishedKeepsPrune(cfg, s, s', b0);
    PublishedKeepsSnaps(cfg, s, s', b0);
    PublishedKeepsBackups(cfg, s, s', k, b0);
    PublishedKeepsIndex(s, s', b0);
  }

  lemma StepBFinish(cfg: Config, s: State, k: nat, nonce: nat)
    requires History(s) && Supersession(s.objs) && Safe(cfg, s) && EnabledBackup(cfg, s, BFinish(k, nonce))
    requires GraceCoversBackup(cfg, s, BFinish(k, nonce))
    ensures Safe(cfg, ApplyBackup(cfg, s, BFinish(k, nonce)))
  {
    hide SnapsInv, PruneInv, Supersession, History, NoPhantoms, BackupFacts, BackupSafe;
    var s' := Finish(s, k, nonce);
    var b := s.backups[k];
    if b.own == {} {
      assert BackupFacts(cfg, s, b) && (Viable(cfg, s, b) ==> BackupSafe(s, b));
      FinishedBackup(cfg, s, b);
      StepLocal(cfg, s, k, s'.backups[k], s');
    } else {
      PublishedIsSafe(cfg, s, s', k, Blob(nonce, b.own, {}));
    }
  }

  // ---------- the commit ----------

  lemma CommittedTree(cfg: Config, s: State, b: Backup, t: Tree)
    requires Clock(s) && BackupFacts(cfg, s, b) && BackupSafe(s, b) && Viable(cfg, s, b)
    requires t in b.seen && !b.phase.Started? && (TreeObj(t) in b.marksAtStart ==> t in b.confirmed)
    ensures Protected(s, b, TreeObj(t))
  {
  }

  lemma CommittedTreeSafe(cfg: Config, s: State, b: Backup, t: Tree)
    requires Clock(s) && PruneInv(cfg, s)
    requires Viable(cfg, s, b) && Protected(s, b, TreeObj(t))
    ensures TreeSafe(cfg, s, t)
  {
    if Condemned(s.prune, TreeObj(t)) {
      assert Expired(cfg, s, s.prune.plan.planNow, TreeObj(t));
    }
  }

  lemma CommittedChunkSafe(cfg: Config, s: State, b: Backup, c: Chunk)
    requires Clock(s) && PruneInv(cfg, s)
    requires BackupFacts(cfg, s, b) && BackupSafe(s, b) && Viable(cfg, s, b) && b.phase.Verified?
    requires Covered(b, c)
    ensures ChunkSafe(cfg, s, c)
  {
    var p;
    if Holder(b.own, c) {
      p :| p in b.own && c in p.chunks;
    } else {
      p :| (c, p) in b.refs;
    }
    assert Listed(s.objs, p) && PackObj(p) !in b.marksAtStart;
    if s.prune.Walked? {
      NotCondemned(cfg, s, b, s.prune.planNow, PackObj(p));
    }
  }

  lemma CommitKeepsSnaps(cfg: Config, s: State, b: Backup, key: nat, roots: set<Tree>, s': State)
    requires Clock(s) && PruneInv(cfg, s) && SnapsInv(cfg, s)
    requires BackupFacts(cfg, s, b) && BackupSafe(s, b) && Viable(cfg, s, b) && b.phase.Verified?
    requires forall t | t in b.seen && TreeObj(t) in b.marksAtStart :: t in b.confirmed
    requires roots <= b.seen && s' == s.(snaps := s.snaps[key := roots])
    ensures SnapsInv(cfg, s')
  {
    forall t | t in LiveTrees(s'.snaps)
      ensures TreeSafe(cfg, s', t) && forall c | c in t.chunks :: ChunkSafe(cfg, s', c)
    {
      if t !in LiveTrees(s.snaps) {
        var r :| r in roots && t in Reach(r);
        ReachInClosed(r, b.seen);
        CommittedTree(cfg, s, b, t);
        CommittedTreeSafe(cfg, s, b, t);
      }
      assert TreeSafe(cfg, s, t);
      forall c | c in t.chunks ensures ChunkSafe(cfg, s', c) {
        if t !in LiveTrees(s.snaps) {
          assert c in ChunksOf(b.seen);
          CommittedChunkSafe(cfg, s, b, c);
        }
        assert ChunkSafe(cfg, s, c);
      }
    }
  }

  /** The snapshot is in the store; the backup still runs. */
  lemma SnapshotAppears(cfg: Config, s: State, k: nat, key: nat, roots: set<Tree>, s': State)
    requires cfg.Valid() && Safe(cfg, s) && In(s, k, Verified) && roots <= s.backups[k].seen
    requires forall t | t in s.backups[k].seen && TreeObj(t) in s.backups[k].marksAtStart :: t in s.backups[k].confirmed
    requires s.now <= s.backups[k].gateTime + cfg.Margin()
    requires s' == s.(snaps := s.snaps[key := roots])
    ensures Safe(cfg, s')
  {
    hide SnapsInv, PruneInv, NoPhantoms, Gentle, BackupFacts, BackupSafe;
    var b := s.backups[k];
    GateTimeKnown(cfg, s, k);
    CommitKeepsSnaps(cfg, s, b, key, roots, s');
    PruneKept(cfg, s, s');
    forall j | j in s'.backups ensures Gentle(cfg, s, s', s'.backups[j]) {
      SameIsGentle(cfg, s, s', s'.backups[j]);
    }
    BackupsKept(cfg, s, s');
  }

  lemma StepBCommit(cfg: Config, s: State, k: nat, key: nat, roots: set<Tree>)
    requires cfg.Valid() && Safe(cfg, s) && EnabledBackup(cfg, s, BCommit(k, key, roots))
    requires CommitInMargin(cfg, s, BCommit(k, key, roots))
    ensures Safe(cfg, ApplyBackup(cfg, s, BCommit(k, key, roots)))
  {
    hide Safe;
    var s1 := s.(snaps := s.snaps[key := roots]);
    SnapshotAppears(cfg, s, k, key, roots, s1);
    StepQuiet(cfg, s1, ApplyBackup(cfg, s, BCommit(k, key, roots)));
  }
}
