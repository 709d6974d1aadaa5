/** What each kind of action may change, once and for all: the proofs about runs use these frames instead of the
  transition functions. */
module GcFrames {
  import opened Objects
  import opened GcMachine

  predicate WritesTree(a: Action) {
    a.BPutTree? || a.BHealTree? || a.BTouch?
  }

  predicate WritesSealed(a: Action) {
    a.BPutPack? || a.BFinish?
  }

  ghost predicate TreeWritten(s: State, s': State, t: Tree, touch: bool) {
    && s' == s.(objs := s'.objs, touches := s'.touches, backups := s'.backups)
    && (s'.objs == s.objs || (!touch && s'.objs == s.objs[TreeObj(t) := s.now]))
    && (s'.touches == s.touches || (touch && s'.touches == s.touches[t := s.now]))
  }

  ghost predicate SealedWritten(s: State, s': State, o: Obj) {
    s' == s.(objs := s.objs[o := s.now], used := s.used + {o}, backups := s'.backups)
  }

  /** A backup touches one part of the store at a time. */
  ghost predicate BackupEffect(s: State, s': State, a: Action) {
    if WritesTree(a) then TreeWritten(s, s', a.t, a.BTouch?)
    else if a.BPutPack? then NewName(s, a.p) && SealedWritten(s, s', PackObj(a.p))
    else if a.BFinish? then
      s' == s.(backups := s'.backups)
      || exists b: Blob :: IndexObj(b) !in s.used && b.supersedes == {} && SealedWritten(s, s', IndexObj(b))
    else if a.BCommit? then s' == s.(snaps := s.snaps[a.key := a.roots], backups := s'.backups)
    else s' == s.(backups := s'.backups)
  }

  lemma TreeWriterEffect(cfg: Config, s: State, a: Action)
    requires OfBackup(a) && WritesTree(a) && EnabledBackup(cfg, s, a)
    ensures BackupEffect(s, ApplyBackup(cfg, s, a), a)
  {
  }

  lemma PackWriterEffect(cfg: Config, s: State, a: Action)
    requires a.BPutPack? && EnabledBackup(cfg, s, a)
    ensures BackupEffect(s, ApplyBackup(cfg, s, a), a)
  {
  }

  lemma FinishEffect(cfg: Config, s: State, a: Action)
    requires a.BFinish? && EnabledBackup(cfg, s, a)
    ensures BackupEffect(s, ApplyBackup(cfg, s, a), a)
  {
    hide Covered, ChunksOf;
    if s.backups[a.k].own != {} {
      var b := Blob(a.nonce, s.backups[a.k].own, {});
      assert IndexObj(b) !in s.used && b.supersedes == {};
    }
  }

  lemma ReaderEffect(cfg: Config, s: State, a: Action)
    requires OfBackup(a) && !WritesTree(a) && !WritesSealed(a) && EnabledBackup(cfg, s, a)
    ensures BackupEffect(s, ApplyBackup(cfg, s, a), a)
  {
    hide GateExpired, MustConfirm, ChosenFor, TouchedSince, LiveTrees, ListedPacks, Covered, ChunksOf;
  }

  lemma BackupActs(cfg: Config, s: State, a: Action)
    requires OfBackup(a) && EnabledBackup(cfg, s, a)
    ensures BackupEffect(s, ApplyBackup(cfg, s, a), a)
  {
    hide EnabledBackup, ApplyBackup, BackupEffect;
    if WritesTree(a) {
      TreeWriterEffect(cfg, s, a);
    } else if a.BPutPack? {
      PackWriterEffect(cfg, s, a);
    } else if a.BFinish? {
      FinishEffect(cfg, s, a);
    } else {
      ReaderEffect(cfg, s, a);
    }
  }

  /** A backup that publishes nothing leaves the index alone. */
  lemma BackupLeaves(s: State, s': State, a: Action)
    requires BackupEffect(s, s', a)
    ensures s'.prune == s.prune && s'.marks == s.marks && s'.rebuilds == s.rebuilds && s'.now == s.now && s.used <= s'.used
    ensures forall o | o in s.objs :: o in s'.objs
    ensures !a.BCommit? ==> s'.snaps == s.snaps
    ensures !a.BFinish? ==> (forall b :: IndexObj(b) in s'.objs <==> IndexObj(b) in s.objs)
    ensures !a.BFinish? ==> (s'.used == s.used || (a.BPutPack? && NewName(s, a.p) && s'.used == s.used + {PackObj(a.p)}))
    ensures !a.BFinish? ==> forall o | o in s'.objs && !o.TreeObj? :: o in s.objs || o in s'.used
  {
    hide NewName, TreeWritten, SealedWritten;
    if WritesTree(a) {
      TreeLeaves(s, s', a.t, a.BTouch?);
    } else if a.BPutPack? {
      SealedLeaves(s, s', PackObj(a.p));
    } else if a.BFinish? && s' != s.(backups := s'.backups) {
      var b: Blob :| IndexObj(b) !in s.used && b.supersedes == {} && SealedWritten(s, s', IndexObj(b));
      SealedLeaves(s, s', IndexObj(b));
    }
  }

  lemma TreeLeaves(s: State, s': State, t: Tree, touch: bool)
    requires TreeWritten(s, s', t, touch)
    ensures s'.prune == s.prune && s'.marks == s.marks && s'.rebuilds == s.rebuilds && s'.now == s.now
    ensures s'.used == s.used && s'.snaps == s.snaps
    ensures forall o | o in s.objs :: o in s'.objs
    ensures forall o: Obj | !o.TreeObj? :: o in s'.objs <==> o in s.objs
  {
  }

  lemma SealedLeaves(s: State, s': State, o: Obj)
    requires SealedWritten(s, s', o)
    ensures s'.prune == s.prune && s'.marks == s.marks && s'.rebuilds == s.rebuilds && s'.now == s.now
    ensures s'.used == s.used + {o} && s'.snaps == s.snaps
    ensures forall x :: x in s'.objs <==> x in s.objs || x == o
  {
  }

  /** Prune, too. */
  ghost predicate PruneEffect(s: State, s': State, a: Action) {
    if a.PPutPack? then
      && NewName(s, a.p)
      && s' == s.(objs := s.objs[PackObj(a.p) := s.now], used := s.used + {PackObj(a.p)}, prune := s'.prune)
    else if a.PWriteIndex? then
      exists b: Blob ::
        && IndexObj(b) !in s.used
        && s' == s.(objs := s.objs[IndexObj(b) := s.now], used := s.used + {IndexObj(b)}, prune := s'.prune)
    else if a.PDelete? then s' == s.(objs := s.objs - {a.o}, prune := s'.prune)
    else if a.PDeleteTouch? || a.PSweep? then s' == s.(touches := s.touches - {a.t}, prune := s'.prune)
    else if a.PUnmark? then s' == s.(marks := s.marks - {a.o}, prune := s'.prune)
    else if a.PMark? then
      s' == s.(marks := if a.o in s.marks then s.marks else s.marks[a.o := s.now], prune := s'.prune)
    else s' == s.(prune := s'.prune)
  }

  lemma PruneLeaves(s: State, s': State, a: Action)
    requires PruneEffect(s, s', a)
    ensures s'.rebuilds == s.rebuilds && s'.snaps == s.snaps && s'.backups == s.backups && s.used <= s'.used
    ensures forall o | o in s'.objs && o !in s.objs :: !o.TreeObj? && o !in s.used
  {
  }

  lemma PlannerEffect(cfg: Config, s: State, a: Action)
    requires a.PLoad? || a.PWalk? || a.PList? || a.PDecide? || a.PPutPack? || a.PWriteIndex? || a.PKeepIndex?
    requires EnabledPrune(cfg, s, a)
    ensures PruneEffect(s, ApplyPrune(cfg, s, a), a)
  {
    hide Decide, NewIndex, Repacked, NeedsRewrite, Needed, LiveTrees, ChunksOf, Blobs;
  }

  lemma DeleterEffect(cfg: Config, s: State, a: Action)
    requires a.PCheck? || a.PDelete? || a.PSkip? || a.PDeleteTouch? || a.PNext? || a.PStop?
    requires EnabledPrune(cfg, s, a)
    ensures PruneEffect(s, ApplyPrune(cfg, s, a), a)
  {
    hide Checked, AfterStage;
  }

  lemma MarkerEffect(cfg: Config, s: State, a: Action)
    requires a.PUnmark? || a.PMark? || a.PFindOrphan? || a.PSweep?
    requires EnabledPrune(cfg, s, a)
    ensures PruneEffect(s, ApplyPrune(cfg, s, a), a)
  {
  }

  lemma PruneActs(cfg: Config, s: State, a: Action)
    requires OfPrune(a) && EnabledPrune(cfg, s, a)
    ensures PruneEffect(s, ApplyPrune(cfg, s, a), a)
  {
    hide EnabledPrune, ApplyPrune, PruneEffect;
    if a.PLoad? || a.PWalk? || a.PList? || a.PDecide? || a.PPutPack? || a.PWriteIndex? || a.PKeepIndex? {
      PlannerEffect(cfg, s, a);
    } else if a.PUnmark? || a.PMark? || a.PFindOrphan? || a.PSweep? {
      MarkerEffect(cfg, s, a);
    } else {
      DeleterEffect(cfg, s, a);
    }
  }
}
