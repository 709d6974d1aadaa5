/** What the commit gate is worth, and what prune lets be. `GcSafety` shows what the protocol keeps while its promises
  are kept; here is what the gate has seen in any run at all, that it stands in nobody's way while no prune is at work,
  and that a pass of prune neither marks what is young nor deletes what is spared. */
module GcGate {
  import opened Objects
  import opened ChunkTable
  import opened GcMachine
  import opened GcFrames
  import opened GcIndexHistory
  import opened GcInvariant
  import opened GcSteps
  import opened GcPruneSteps
  import opened GcRebuildSteps
  import opened GcSafety
  import opened GcProgress

  // ---------- what stands behind a snapshot ----------

  /** What a backup has done to get where it is, promises kept or not. */
  ghost predicate Checked(cfg: Config, used: set<Obj>, b: Backup) {
    && Closed(b.seen)
    && (Complete(b.phase) ==> b.toTouch == {} && forall c | c in ChunksOf(b.seen) :: Covered(b, c))
    && (forall p | p in b.own :: PackObj(p) in used)
    && (!b.phase.Reloaded? && !b.phase.Verified? ==> b.found == {})
    && (forall p | p in b.found :: PackObj(p) in used && !GateExpired(cfg, b, PackObj(p)))
    && (b.phase.Verified? ==> forall r | r in b.refs :: Holder(b.found, r.0))
    && (AtGate(b.phase) ==> b.gateTime - b.started + cfg.Margin() < cfg.backupGrace)
    && (b.phase.Started? || b.phase.MarksListed? ==> b.seen == {} && b.toTouch == {} && b.refs == {} && b.own == {})
  }

  ghost predicate AllChecked(cfg: Config, s: State) {
    forall k | k in s.backups :: Checked(cfg, s.used, s.backups[k])
  }

  lemma StillChecked(cfg: Config, used: set<Obj>, used': set<Obj>, b: Backup)
    requires Checked(cfg, used, b) && used <= used'
    ensures Checked(cfg, used', b)
  {
    hide Closed, ChunksOf, Covered, GateExpired;
  }

  /** The work of a backup. */
  lemma WorkChecked(cfg: Config, s: State, a: Action)
    requires OfBackup(a) && EnabledBackup(cfg, s, a) && AllChecked(cfg, s) && s.used <= ApplyBackup(cfg, s, a).used
    requires a.k in ApplyBackup(cfg, s, a).backups
    requires a.BStart? || a.BListMarks? || a.BLoadIndex? || a.BReuse? || a.BPutPack? || a.BPutTree? || a.BTouch?
    ensures Checked(cfg, ApplyBackup(cfg, s, a).used, ApplyBackup(cfg, s, a).backups[a.k])
  {
    hide ChunksOf, Covered, GateExpired, ListedPacks, NewName;
    if a.k in s.backups {
      assert Checked(cfg, s.used, s.backups[a.k]);
    }
  }

  /** The end of the work. */
  lemma FinishChecked(cfg: Config, s: State, k: nat, nonce: nat)
    requires EnabledBackup(cfg, s, BFinish(k, nonce)) && AllChecked(cfg, s)
    requires s.used <= ApplyBackup(cfg, s, BFinish(k, nonce)).used
    ensures Checked(cfg, ApplyBackup(cfg, s, BFinish(k, nonce)).used, ApplyBackup(cfg, s, BFinish(k, nonce)).backups[k])
  {
    hide Checked, Covered, ChunksOf;
    var b := s.backups[k];
    assert Checked(cfg, s.used, b);
    PreparedIsChecked(cfg, s.used, b);
    StillChecked(cfg, s.used, ApplyBackup(cfg, s, BFinish(k, nonce)).used, b.(phase := Prepared));
  }

  lemma PreparedIsChecked(cfg: Config, used: set<Obj>, b: Backup)
    requires Checked(cfg, used, b) && b.phase.Working? && b.toTouch == {}
    requires forall c | c in ChunksOf(b.seen) :: Covered(b, c)
    ensures Checked(cfg, used, b.(phase := Prepared))
  {
    hide Closed, GateExpired, ChunksOf;
    forall c | Covered(b, c) ensures Covered(b.(phase := Prepared), c) {
    }
  }

  /** The gate changes what it knows, and nothing that has been done. */
  lemma GateChecked(cfg: Config, used: set<Obj>, b: Backup, b': Backup)
    requires Checked(cfg, used, b) && Complete(b.phase) && AtGate(b'.phase)
    requires b'.own == b.own && b'.refs == b.refs && b'.seen == b.seen && b'.toTouch == b.toTouch && b'.started == b.started
    requires b'.gateTime - b'.started + cfg.Margin() < cfg.backupGrace
    requires !b'.phase.Reloaded? && !b'.phase.Verified? ==> b'.found == {}
    requires forall p | p in b'.found :: PackObj(p) in used && !GateExpired(cfg, b', PackObj(p))
    requires b'.phase.Verified? ==> forall r | r in b.refs :: Holder(b'.found, r.0)
    ensures Checked(cfg, used, b')
  {
    hide Closed, GateExpired;
    forall c | Covered(b, c) ensures Covered(b', c) {
    }
  }

  lemma GateStepChecked(cfg: Config, s: State, a: Action)
    requires OfBackup(a) && EnabledBackup(cfg, s, a) && AllChecked(cfg, s)
    requires a.k in ApplyBackup(cfg, s, a).backups
    requires a.BGateOpen? || a.BGateMarks? || a.BReload? || a.BConfirmTree?
    ensures Checked(cfg, s.used, ApplyBackup(cfg, s, a).backups[a.k])
  {
    hide Closed, ListedPacks, TouchedSince, MustConfirm, ChunksOf, Covered;
    var b := s.backups[a.k];
    assert Checked(cfg, s.used, b);
    GateChecked(cfg, s.used, b, ApplyBackup(cfg, s, a).backups[a.k]);
  }

  lemma FindChecked(cfg: Config, s: State, k: nat, p: Pack)
    requires EnabledBackup(cfg, s, BFindPack(k, p)) && AllChecked(cfg, s) && History(s)
    ensures Checked(cfg, s.used, ApplyBackup(cfg, s, BFindPack(k, p)).backups[k])
  {
    hide Closed, ChunksOf, Covered;
    var b := s.backups[k];
    assert Checked(cfg, s.used, b);
    GateChecked(cfg, s.used, b, b.(found := b.found + {p}));
  }

  lemma VerifyChecked(cfg: Config, s: State, k: nat)
    requires EnabledBackup(cfg, s, BVerifyChunks(k)) && AllChecked(cfg, s)
    ensures Checked(cfg, s.used, ApplyBackup(cfg, s, BVerifyChunks(k)).backups[k])
  {
    hide Closed, ChunksOf, Covered;
    var b := s.backups[k];
    assert Checked(cfg, s.used, b);
    forall r | r in b.refs ensures Holder(b.found, r.0) {
      var p :| p in b.found && ChosenFor(b.gateMarks, b.reloaded, r.0, p);
    }
    GateChecked(cfg, s.used, b, b.(phase := Verified));
  }

  lemma OwnStepChecked(cfg: Config, s: State, a: Action)
    requires OfBackup(a) && !a.BHealTree? && !a.BCommit? && !a.BStop?
    requires EnabledBackup(cfg, s, a) && AllChecked(cfg, s) && History(s)
    requires s.used <= ApplyBackup(cfg, s, a).used && a.k in ApplyBackup(cfg, s, a).backups
    ensures Checked(cfg, ApplyBackup(cfg, s, a).used, ApplyBackup(cfg, s, a).backups[a.k])
  {
    hide Checked, AllChecked, EnabledBackup, ApplyBackup;
    if a.BFinish? {
      FinishChecked(cfg, s, a.k, a.nonce);
    } else if a.BFindPack? {
      FindChecked(cfg, s, a.k, a.p);
      StillChecked(cfg, s.used, ApplyBackup(cfg, s, a).used, ApplyBackup(cfg, s, a).backups[a.k]);
    } else if a.BVerifyChunks? {
      VerifyChecked(cfg, s, a.k);
      StillChecked(cfg, s.used, ApplyBackup(cfg, s, a).used, ApplyBackup(cfg, s, a).backups[a.k]);
    } else if a.BGateOpen? || a.BGateMarks? || a.BReload? || a.BConfirmTree? {
      GateStepChecked(cfg, s, a);
      StillChecked(cfg, s.used, ApplyBackup(cfg, s, a).used, ApplyBackup(cfg, s, a).backups[a.k]);
    } else {
      WorkChecked(cfg, s, a);
    }
  }

  lemma BackupStepChecked(cfg: Config, s: State, a: Action)
    requires OfBackup(a) && EnabledBackup(cfg, s, a) && AllChecked(cfg, s) && History(s)
    requires s.used <= ApplyBackup(cfg, s, a).used
    ensures AllChecked(cfg, ApplyBackup(cfg, s, a))
  {
    OneAtATime(cfg, s, a);
    hide Checked, EnabledBackup, ApplyBackup;
    var s' := ApplyBackup(cfg, s, a);
    if !a.BHealTree? && !a.BCommit? && !a.BStop? {
      OwnStepChecked(cfg, s, a);
    }
    forall k | k in s'.backups ensures Checked(cfg, s'.used, s'.backups[k]) {
      if k in s.backups && s'.backups[k] == s.backups[k] {
        StillChecked(cfg, s.used, s'.used, s.backups[k]);
      }
    }
  }

  /** Only the backup `k` may change. */
  ghost predicate Alone(s: State, s': State, k: nat) {
    forall j | j in s'.backups && j != k :: j in s.backups && s'.backups[j] == s.backups[j]
  }

  /** A backup changes only what is its own. */
  lemma OneAtATime(cfg: Config, s: State, a: Action)
    requires OfBackup(a) && EnabledBackup(cfg, s, a)
    ensures var s' := ApplyBackup(cfg, s, a);
            && Alone(s, s', a.k) && (a.BHealTree? ==> s'.backups == s.backups)
            && (a.k in s'.backups <==> !a.BCommit? && !a.BStop?)
  {
    hide Alone;
    if a.BStart? || a.BListMarks? || a.BLoadIndex? || a.BReuse? || a.BPutPack? || a.BPutTree? || a.BHealTree? || a.BTouch? {
      WorkIsAlone(cfg, s, a);
    } else {
      GateIsAlone(cfg, s, a);
    }
  }

  lemma WorkIsAlone(cfg: Config, s: State, a: Action)
    requires OfBackup(a) && EnabledBackup(cfg, s, a)
    requires a.BStart? || a.BListMarks? || a.BLoadIndex? || a.BReuse? || a.BPutPack? || a.BPutTree? || a.BHealTree? || a.BTouch?
    ensures Alone(s, ApplyBackup(cfg, s, a), a.k) && a.k in ApplyBackup(cfg, s, a).backups
    ensures a.BHealTree? ==> ApplyBackup(cfg, s, a).backups == s.backups
  {
    hide ListedPacks, NewName;
  }

  lemma GateIsAlone(cfg: Config, s: State, a: Action)
    requires OfBackup(a) && EnabledBackup(cfg, s, a)
    requires a.BFinish? || a.BGateOpen? || a.BGateMarks? || a.BReload? || a.BFindPack? || a.BVerifyChunks?
             || a.BConfirmTree? || a.BCommit? || a.BStop?
    ensures Alone(s, ApplyBackup(cfg, s, a), a.k)
    ensures a.k in ApplyBackup(cfg, s, a).backups <==> !a.BCommit? && !a.BStop?
  {
    hide ListedPacks, TouchedSince, MustConfirm, ChosenFor, Covered, ChunksOf, GateExpired;
  }

  lemma StepChecked(cfg: Config, s: State, a: Action)
    requires IndexInv(s) && AllChecked(cfg, s) && Enabled(cfg, s, a)
    ensures AllChecked(cfg, Apply(cfg, s, a))
  {
    StepKeepsIndex(cfg, s, a);
    hide Checked, EnabledBackup, ApplyBackup, EnabledPrune, ApplyPrune, EnabledRebuild, ApplyRebuild, PruneEffect;
    hide Names, Supersession, Listings, PruneListing;
    var s' := Apply(cfg, s, a);
    if OfBackup(a) {
      BackupStepChecked(cfg, s, a);
    } else {
      assert s'.backups == s.backups by { OnlyBackups(cfg, s, a); }
      forall k | k in s'.backups ensures Checked(cfg, s'.used, s'.backups[k]) {
        StillChecked(cfg, s.used, s'.used, s.backups[k]);
      }
    }
  }

  lemma OnlyBackups(cfg: Config, s: State, a: Action)
    requires Enabled(cfg, s, a) && !OfBackup(a)
    ensures Apply(cfg, s, a).backups == s.backups
  {
    hide EnabledPrune, ApplyPrune, Blobs, PacksOf;
    if OfPrune(a) {
      PruneActs(cfg, s, a);
      PruneLeaves(s, ApplyPrune(cfg, s, a), a);
    }
  }

  lemma {:induction false} RunChecked(cfg: Config, s: State, run: seq<Action>)
    requires IndexInv(s) && AllChecked(cfg, s) && Runs(cfg, s, run)
    ensures AllChecked(cfg, After(cfg, s, run))
    decreases |run|
  {
    hide IndexInv, AllChecked, Enabled, Apply, Effective;
    if run != [] {
      StepKeepsIndex(cfg, s, run[0]);
      StepChecked(cfg, s, run[0]);
      RunChecked(cfg, Apply(cfg, s, run[0]), run[1..]);
    }
  }

  /** Whoever may commit, in whatever run, has touched all it had to touch, opened the gate in time, and has for every
      chunk of every tree below its roots a pack of its own or one that the gate has found, not marked longer than the
      grace. */
  lemma CommitMeansChecked(cfg: Config, s0: State, run: seq<Action>, k: nat, key: nat, roots: set<Tree>, root: Tree, t: Tree, c: Chunk)
    requires Init(s0) && Runs(cfg, s0, run) && Enabled(cfg, After(cfg, s0, run), BCommit(k, key, roots))
    requires root in roots && t in Reach(root) && c in t.chunks
    ensures var s := After(cfg, s0, run); var b := s.backups[k];
            && b.toTouch == {} && b.gateTime - b.started + cfg.Margin() < cfg.backupGrace
            && exists p :: (p in b.own || p in b.found) && c in p.chunks && PackObj(p) in s.used
                           && (p in b.own || !GateExpired(cfg, b, PackObj(p)))
  {
    assert IndexInv(s0) && AllChecked(cfg, s0);
    hide IndexInv, AllChecked, Runs, After;
    RunChecked(cfg, s0, run);
    CommitIsChecked(cfg, After(cfg, s0, run), k, key, roots, root, t, c);
  }

  lemma CommitIsChecked(cfg: Config, s: State, k: nat, key: nat, roots: set<Tree>, root: Tree, t: Tree, c: Chunk)
    requires AllChecked(cfg, s) && EnabledBackup(cfg, s, BCommit(k, key, roots))
    requires root in roots && t in Reach(root) && c in t.chunks
    ensures var b := s.backups[k];
            && b.toTouch == {} && b.gateTime - b.started + cfg.Margin() < cfg.backupGrace
            && exists p :: (p in b.own || p in b.found) && c in p.chunks && PackObj(p) in s.used
                           && (p in b.own || !GateExpired(cfg, b, PackObj(p)))
  {
    var b := s.backups[k];
    assert Checked(cfg, s.used, b);
    ReachInClosed(root, b.seen);
    hide Closed, GateExpired, MustConfirm, Reach;
    assert c in ChunksOf(b.seen) && Covered(b, c);
    if Holder(b.own, c) {
      var p :| p in b.own && c in p.chunks;
    } else {
      var p :| (c, p) in b.refs;
      assert Holder(b.found, (c, p).0);
      var q :| q in b.found && c in q.chunks;
    }
  }

  // ---------- what a pass of prune lets be ----------

  /** `o` carries no mark, was not written a grace before `t0`, and prune has no plan to mark it. */
  ghost predicate Young(cfg: Config, t0: Time, s: State, o: Obj) {
    && o !in s.marks && t0 <= s.now
    && (o in s.objs ==> t0 < s.objs[o] + cfg.pruneGrace)
    && match s.prune
       case Idle => true
       case Loaded(planNow, _) => planNow <= t0
       case Walked(planNow, _, _, _, listed, _) => planNow <= t0 && (o in listed ==> t0 < listed[o] + cfg.pruneGrace)
       case Running(plan, stage) => o !in plan.toMark && (stage.Marking? ==> o !in stage.mark)
  }

  /** `o` is stored, and prune has no plan to delete it. */
  ghost predicate Kept(s: State, o: Obj) {
    && o in s.objs
    && (s.prune.Running? ==>
          && o !in s.prune.plan.toDelete
          && (s.prune.stage.Deleting? ==> o !in s.prune.stage.pending && o !in s.prune.stage.cleared))
  }

  /** What clients do to the store. */
  ghost predicate ClientWrote(s: State, s': State) {
    && s'.marks == s.marks && s'.prune == s.prune && s.now <= s'.now
    && (forall o | o in s.objs :: o in s'.objs)
    && (forall o | o in s'.objs :: (o in s.objs && s'.objs[o] == s.objs[o]) || s'.objs[o] == s.now)
  }

  lemma TreeWrote(s: State, s': State, t: Tree, touch: bool)
    requires TreeWritten(s, s', t, touch)
    ensures ClientWrote(s, s')
  {
  }

  lemma SealedWrote(s: State, s': State, o: Obj)
    requires SealedWritten(s, s', o)
    ensures ClientWrote(s, s')
  {
  }

  lemma EffectWrote(s: State, s': State, a: Action)
    requires BackupEffect(s, s', a)
    ensures ClientWrote(s, s')
  {
    hide NewName, TreeWritten, SealedWritten;
    if WritesTree(a) {
      TreeWrote(s, s', a.t, a.BTouch?);
    } else if a.BPutPack? {
      SealedWrote(s, s', PackObj(a.p));
    } else if a.BFinish? && s' != s.(backups := s'.backups) {
      var b: Blob :| IndexObj(b) !in s.used && b.supersedes == {} && SealedWritten(s, s', IndexObj(b));
      SealedWrote(s, s', IndexObj(b));
    }
  }

  lemma ClientWrites(cfg: Config, s: State, a: Action)
    requires Enabled(cfg, s, a) && !OfPrune(a)
    ensures ClientWrote(s, Apply(cfg, s, a))
  {
    hide EnabledBackup, ApplyBackup, Blobs, PacksOf;
    if OfBackup(a) {
      BackupActs(cfg, s, a);
      EffectWrote(s, ApplyBackup(cfg, s, a), a);
    }
  }

  lemma ClientStep(cfg: Config, t0: Time, s: State, a: Action, o: Obj)
    requires cfg.pruneGrace > 0 && Enabled(cfg, s, a) && !OfPrune(a)
    ensures Young(cfg, t0, s, o) ==> Young(cfg, t0, Apply(cfg, s, a), o)
    ensures Kept(s, o) ==> Kept(Apply(cfg, s, a), o)
  {
    hide Enabled, Apply;
    ClientWrites(cfg, s, a);
  }

  lemma PlanningStep(cfg: Config, t0: Time, s: State, a: Action, o: Obj)
    requires OfPrune(a) && EnabledPrune(cfg, s, a) && (a.PWalk? || a.PList? || a.PDecide?)
    ensures Young(cfg, t0, s, o) ==> Young(cfg, t0, ApplyPrune(cfg, s, a), o)
    ensures Kept(s, o) && (a.PDecide? ==> o in a.blocked) ==> Kept(ApplyPrune(cfg, s, a), o)
  {
    hide Needed, LiveTrees, Blobs, IndexedIn, ChunksOf;
  }

  lemma WritingStep(cfg: Config, t0: Time, s: State, a: Action, o: Obj)
    requires cfg.pruneGrace > 0 && OfPrune(a) && EnabledPrune(cfg, s, a) && (a.PPutPack? || a.PWriteIndex? || a.PKeepIndex?)
    ensures Young(cfg, t0, s, o) ==> Young(cfg, t0, ApplyPrune(cfg, s, a), o)
    ensures Kept(s, o) ==> Kept(ApplyPrune(cfg, s, a), o)
  {
    hide Repacked, NeedsRewrite, NewIndex;
  }

  lemma DeletingStep(cfg: Config, t0: Time, s: State, a: Action, o: Obj)
    requires OfPrune(a) && EnabledPrune(cfg, s, a)
    requires a.PCheck? || a.PDelete? || a.PSkip? || a.PDeleteTouch? || a.PNext? || a.PStop?
    ensures Young(cfg, t0, s, o) ==> Young(cfg, t0, ApplyPrune(cfg, s, a), o)
    ensures Kept(s, o) ==> Kept(ApplyPrune(cfg, s, a), o)
  {
    hide Evidence;
  }

  lemma MarkingStep(cfg: Config, t0: Time, s: State, a: Action, o: Obj)
    requires OfPrune(a) && EnabledPrune(cfg, s, a) && (a.PUnmark? || a.PMark? || a.PFindOrphan? || a.PSweep?)
    ensures Young(cfg, t0, s, o) ==> Young(cfg, t0, ApplyPrune(cfg, s, a), o)
    ensures Kept(s, o) ==> Kept(ApplyPrune(cfg, s, a), o)
  {
  }

  lemma StepLetsBe(cfg: Config, t0: Time, s: State, a: Action, o: Obj)
    requires cfg.pruneGrace > 0 && Enabled(cfg, s, a) && !a.PLoad?
    ensures Young(cfg, t0, s, o) ==> Young(cfg, t0, Apply(cfg, s, a), o)
    ensures Kept(s, o) && (a.PDecide? ==> o in a.blocked) ==> Kept(Apply(cfg, s, a), o)
  {
    hide Young, Kept, EnabledPrune, ApplyPrune, EnabledBackup, ApplyBackup, EnabledRebuild, ApplyRebuild;
    if !OfPrune(a) {
      ClientStep(cfg, t0, s, a, o);
    } else if a.PWalk? || a.PList? || a.PDecide? {
      PlanningStep(cfg, t0, s, a, o);
    } else if a.PPutPack? || a.PWriteIndex? || a.PKeepIndex? {
      WritingStep(cfg, t0, s, a, o);
    } else if a.PUnmark? || a.PMark? || a.PFindOrphan? || a.PSweep? {
      MarkingStep(cfg, t0, s, a, o);
    } else {
      DeletingStep(cfg, t0, s, a, o);
    }
  }

  lemma {:induction false} RunLetsBe(cfg: Config, t0: Time, s: State, run: seq<Action>, o: Obj)
    requires cfg.pruneGrace > 0 && Runs(cfg, s, run) && forall a | a in run :: !a.PLoad?
    ensures Young(cfg, t0, s, o) ==> Young(cfg, t0, After(cfg, s, run), o)
    ensures Kept(s, o) && (forall a | a in run && a.PDecide? :: o in a.blocked) ==> Kept(After(cfg, s, run), o)
    decreases |run|
  {
    hide Young, Kept, Enabled, Apply;
    if run != [] {
      assert run[0] in run;
      StepLetsBe(cfg, t0, s, run[0], o);
      RunLetsBe(cfg, t0, Apply(cfg, s, run[0]), run[1..], o);
    }
  }

  /** A pass of prune, however it is mixed with the work of others, marks nothing that was written less than a grace
      before it began, or since. */
  lemma YoungIsNotMarked(cfg: Config, s: State, run: seq<Action>, o: Obj)
    requires cfg.pruneGrace > 0 && s.prune.Idle? && run != [] && run[0] == PLoad && Runs(cfg, s, run)
    requires forall a | a in run[1..] :: !a.PLoad?
    requires o !in s.marks && (o in s.objs ==> s.now < s.objs[o] + cfg.pruneGrace)
    ensures o !in After(cfg, s, run).marks
  {
    var s1 := s.(prune := Loaded(s.now, Blobs(s.objs)));
    assert Apply(cfg, s, run[0]) == s1;
    assert Young(cfg, s.now, s1, o);
    hide Apply, Enabled;
    RunLetsBe(cfg, s.now, s1, run[1..], o);
  }

  /** What a pass spares for the sake of clients that may be at work is still there when it is over. */
  lemma SparedIsKept(cfg: Config, s: State, run: seq<Action>, o: Obj)
    requires cfg.pruneGrace > 0 && s.prune.Idle? && run != [] && run[0] == PLoad && Runs(cfg, s, run)
    requires forall a | a in run[1..] :: !a.PLoad? && (a.PDecide? ==> o in a.blocked)
    requires o in s.objs
    ensures o in After(cfg, s, run).objs
  {
    var s1 := s.(prune := Loaded(s.now, Blobs(s.objs)));
    assert Apply(cfg, s, run[0]) == s1;
    assert Kept(s1, o);
    hide Apply, Enabled;
    RunLetsBe(cfg, s.now, s1, run[1..], o);
  }

  // ---------- beside no prune the gate stands in nobody's way ----------

  /** What a backup can rely on while no prune is at work; `m`: the marks there are. */
  ghost predicate Smooth(m: map<Obj, Time>, objs: map<Obj, Time>, touches: map<Tree, Time>, b: Backup) {
    && (b.phase.Started? || b.phase.MarksListed? ==> b.avail == {} && b.refs == {} && b.seen == {} && b.toTouch == {})
    && (!b.phase.Started? ==> b.marksAtStart == m)
    && (b.phase.Verifying? || b.phase.Reloaded? || b.phase.Verified? ==> b.gateMarks == m)
    && (Complete(b.phase) ==> b.toTouch == {})
    && (forall t | t in b.seen :: TreeObj(t) in objs)
    && (forall t | t in b.seen && TreeObj(t) in m :: t in b.toTouch || (t in touches && m[TreeObj(t)] <= touches[t]))
    && (forall p | p in b.avail :: Listed(objs, p) && PackObj(p) !in m)
    && (forall r | r in b.refs :: r.1 in b.avail && r.0 in r.1.chunks)
    && (b.phase.Reloaded? || b.phase.Verified? ==> b.avail <= b.reloaded && forall p | p in b.reloaded :: PackObj(p) in objs)
  }

  ghost predicate Quiet(m: map<Obj, Time>, s: State, k: nat) {
    && s.marks == m && s.prune.Idle? && (forall o | o in m :: m[o] <= s.now)
    && (k in s.backups ==> Smooth(m, s.objs, s.touches, s.backups[k]))
  }

  /** The touches of `s` are there, as new or newer. */
  ghost predicate TouchesStay(s: State, s': State) {
    forall t | t in s.touches :: t in s'.touches && s.touches[t] <= s'.touches[t]
  }

  /** The store has only grown. */
  ghost predicate Grown(s: State, s': State) {
    && (forall o | o in s.objs :: o in s'.objs)
    && TouchesStay(s, s')
    && (forall p | Listed(s.objs, p) :: Listed(s'.objs, p))
  }

  lemma SmoothOn(m: map<Obj, Time>, s: State, s': State, b: Backup)
    requires Smooth(m, s.objs, s.touches, b) && Grown(s, s')
    ensures Smooth(m, s'.objs, s'.touches, b)
  {
    hide Listed;
  }

  lemma ClientGrows(cfg: Config, s: State, a: Action)
    requires Inv(cfg, s) && Enabled(cfg, s, a) && !OfPrune(a)
    ensures Grown(s, Apply(cfg, s, a))
  {
    hide Enabled, Apply, Listed, Effective, IndexInv, PruneInv, NoPhantoms, RebuildsInv, BackupsInv, SnapsInv;
    ClientKeepsListed(cfg, s, a);
    InvParts(cfg, s);
    ClientWrites(cfg, s, a);
    ClientTouches(cfg, s, a);
  }

  lemma ClientTouches(cfg: Config, s: State, a: Action)
    requires Clock(s) && Enabled(cfg, s, a) && !OfPrune(a)
    ensures TouchesStay(s, Apply(cfg, s, a))
  {
    hide EnabledBackup, ApplyBackup, Blobs, PacksOf, BackupEffect;
    if OfBackup(a) {
      BackupActs(cfg, s, a);
      EffectTouches(s, ApplyBackup(cfg, s, a), a);
    }
  }

  lemma EffectTouches(s: State, s': State, a: Action)
    requires BackupEffect(s, s', a) && Clock(s)
    ensures TouchesStay(s, s')
  {
    hide NewName;
  }

  /** The work of the backup itself. */
  lemma WorkIsSmooth(cfg: Config, m: map<Obj, Time>, s: State, a: Action)
    requires OfBackup(a) && EnabledBackup(cfg, s, a) && Quiet(m, s, a.k) && Grown(s, ApplyBackup(cfg, s, a))
    requires a.k in ApplyBackup(cfg, s, a).backups
    requires a.BStart? || a.BListMarks? || a.BLoadIndex? || a.BReuse? || a.BPutPack? || a.BPutTree? || a.BTouch?
    ensures var s' := ApplyBackup(cfg, s, a); Smooth(m, s'.objs, s'.touches, s'.backups[a.k])
  {
    hide Listed, ListedPacks, NewName;
    ListedPacksAreListed(s.objs);
  }

  /** At the gate only what the gate knows changes. */
  lemma GateKeepsSmooth(m: map<Obj, Time>, objs: map<Obj, Time>, touches: map<Tree, Time>, b: Backup, b': Backup)
    requires Smooth(m, objs, touches, b) && !b.phase.Started? && !b.phase.MarksListed? && Complete(b'.phase)
    requires b'.seen == b.seen && b'.refs == b.refs && b'.avail == b.avail && b'.toTouch == {} && b'.marksAtStart == b.marksAtStart
    requires b.toTouch == {}
    requires b'.phase.Verifying? || b'.phase.Reloaded? || b'.phase.Verified? ==> b'.gateMarks == m
    requires b'.phase.Reloaded? || b'.phase.Verified? ==>
               b.avail <= b'.reloaded && forall p | p in b'.reloaded :: PackObj(p) in objs
    ensures Smooth(m, objs, touches, b')
  {
    hide Listed;
  }

  lemma GateIsSmooth(cfg: Config, m: map<Obj, Time>, s: State, a: Action)
    requires OfBackup(a) && EnabledBackup(cfg, s, a) && Quiet(m, s, a.k)
    requires a.k in ApplyBackup(cfg, s, a).backups
    requires a.BGateOpen? || a.BGateMarks? || a.BFindPack? || a.BVerifyChunks? || a.BConfirmTree?
    ensures var s' := ApplyBackup(cfg, s, a); Smooth(m, s'.objs, s'.touches, s'.backups[a.k])
  {
    hide Listed, ChosenFor, MustConfirm, TouchedSince, GateExpired;
    var b, b' := s.backups[a.k], ApplyBackup(cfg, s, a).backups[a.k];
    assert Smooth(m, s.objs, s.touches, b);
    GateKeepsSmooth(m, s.objs, s.touches, b, b');
  }

  lemma ReloadIsSmooth(cfg: Config, m: map<Obj, Time>, s: State, k: nat)
    requires EnabledBackup(cfg, s, BReload(k)) && Quiet(m, s, k) && NoPhantoms(s.objs)
    ensures var s' := ApplyBackup(cfg, s, BReload(k)); Smooth(m, s'.objs, s'.touches, s'.backups[k])
  {
    hide Listed, ListedPacks;
    ListedPacksAreListed(s.objs);
    var b := s.backups[k];
    assert Smooth(m, s.objs, s.touches, b);
    GateKeepsSmooth(m, s.objs, s.touches, b, b.(phase := Reloaded, reloaded := ListedPacks(s.objs)));
  }

  lemma FinishIsSmooth(cfg: Config, m: map<Obj, Time>, s: State, k: nat, nonce: nat)
    requires EnabledBackup(cfg, s, BFinish(k, nonce)) && Quiet(m, s, k) && Grown(s, ApplyBackup(cfg, s, BFinish(k, nonce)))
    ensures var s' := ApplyBackup(cfg, s, BFinish(k, nonce)); Smooth(m, s'.objs, s'.touches, s'.backups[k])
  {
    hide Listed, ChunksOf, Covered, Grown, Smooth;
    var s', b := ApplyBackup(cfg, s, BFinish(k, nonce)), s.backups[k];
    assert Smooth(m, s.objs, s.touches, b);
    GateKeepsSmooth(m, s.objs, s.touches, b, b.(phase := Prepared));
    SmoothOn(m, s, s', b.(phase := Prepared));
  }

  lemma OwnStepIsSmooth(cfg: Config, m: map<Obj, Time>, s: State, a: Action)
    requires OfBackup(a) && !a.BHealTree? && !a.BCommit? && !a.BStop?
    requires EnabledBackup(cfg, s, a) && Quiet(m, s, a.k) && NoPhantoms(s.objs) && Grown(s, ApplyBackup(cfg, s, a))
    requires a.k in ApplyBackup(cfg, s, a).backups
    ensures var s' := ApplyBackup(cfg, s, a); Smooth(m, s'.objs, s'.touches, s'.backups[a.k])
  {
    hide EnabledBackup, ApplyBackup, Quiet, Smooth, Grown, NoPhantoms;
    if a.BFinish? {
      FinishIsSmooth(cfg, m, s, a.k, a.nonce);
    } else if a.BReload? {
      ReloadIsSmooth(cfg, m, s, a.k);
    } else if a.BGateOpen? || a.BGateMarks? || a.BFindPack? || a.BVerifyChunks? || a.BConfirmTree? {
      GateIsSmooth(cfg, m, s, a);
    } else {
      WorkIsSmooth(cfg, m, s, a);
    }
  }

  lemma BackupIsQuiet(cfg: Config, m: map<Obj, Time>, s: State, a: Action, k: nat)
    requires OfBackup(a) && EnabledBackup(cfg, s, a) && Quiet(m, s, k) && NoPhantoms(s.objs)
    requires Grown(s, ApplyBackup(cfg, s, a)) && ClientWrote(s, ApplyBackup(cfg, s, a))
    ensures Quiet(m, ApplyBackup(cfg, s, a), k)
  {
    OneAtATime(cfg, s, a);
    hide EnabledBackup, ApplyBackup, Smooth, Grown, NoPhantoms;
    var s' := ApplyBackup(cfg, s, a);
    if a.k == k && !a.BHealTree? && !a.BCommit? && !a.BStop? {
      OwnStepIsSmooth(cfg, m, s, a);
    } else if k in s'.backups {
      SmoothOn(m, s, s', s.backups[k]);
    }
  }

  lemma StepIsQuiet(cfg: Config, m: map<Obj, Time>, s: State, a: Action, k: nat)
    requires Inv(cfg, s) && Quiet(m, s, k) && Enabled(cfg, s, a) && !OfPrune(a)
    ensures Quiet(m, Apply(cfg, s, a), k)
  {
    ClientGrows(cfg, s, a);
    ClientWrites(cfg, s, a);
    InvParts(cfg, s);
    hide Inv, IndexInv, Safe, History, Supersession, NoPhantoms, Names, PruneInv, RebuildsInv;
    hide Smooth, Grown, EnabledBackup, ApplyBackup, EnabledRebuild, ApplyRebuild;
    if OfBackup(a) {
      BackupIsQuiet(cfg, m, s, a, k);
    } else {
      OnlyBackups(cfg, s, a);
      if k in s.backups {
        SmoothOn(m, s, Apply(cfg, s, a), s.backups[k]);
      }
    }
  }

  lemma {:induction false} RunIsQuiet(cfg: Config, m: map<Obj, Time>, s: State, run: seq<Action>, k: nat)
    requires cfg.Valid() && Inv(cfg, s) && Quiet(m, s, k) && Runs(cfg, s, run) && Promised(cfg, s, run)
    requires forall a | a in run :: !OfPrune(a)
    ensures Quiet(m, After(cfg, s, run), k)
    decreases |run|
  {
    hide Inv, Quiet, Enabled, Apply, Environment;
    if run != [] {
      assert run[0] in run;
      StepIsQuiet(cfg, m, s, run[0], k);
      StepInv(cfg, s, run[0]);
      RunIsQuiet(cfg, m, Apply(cfg, s, run[0]), run[1..], k);
    }
  }

  /** A backup that runs beside no prune meets no obstacle at the gate: for every chunk it reuses, the pack chosen is
      there to be found, and every tree it has to show can be confirmed. */
  lemma GateLetsThrough(cfg: Config, s0: State, run: seq<Action>, k: nat)
    requires cfg.Valid() && Inv(cfg, s0) && s0.prune.Idle? && k !in s0.backups
    requires Runs(cfg, s0, run) && Promised(cfg, s0, run) && forall a | a in run :: !OfPrune(a)
    requires k in After(cfg, s0, run).backups
    ensures var s := After(cfg, s0, run); var b := s.backups[k];
            b.phase.Reloaded? ==> forall r | r in b.refs ::
              exists p :: ChosenFor(b.gateMarks, b.reloaded, r.0, p) && Enabled(cfg, s, BFindPack(k, p))
    ensures var s := After(cfg, s0, run); var b := s.backups[k];
            b.phase.Verified? ==> forall t | t in b.seen && MustConfirm(cfg, b, t) :: Enabled(cfg, s, BConfirmTree(k, t))
  {
    assert Quiet(s0.marks, s0, k) && k !in s0.backups;
    hide Inv, Runs, Promised, After, Quiet, ChosenFor, EnabledBackup, MustConfirm;
    RunIsQuiet(cfg, s0.marks, s0, run, k);
    RunInv(cfg, s0, run);
    var s := After(cfg, s0, run);
    if In(s, k, Reloaded) {
      PacksCanBeFound(cfg, s0.marks, s, k);
    } else if In(s, k, Verified) {
      TreesCanBeConfirmed(cfg, s0.marks, s, k);
    }
  }

  lemma PacksCanBeFound(cfg: Config, m: map<Obj, Time>, s: State, k: nat)
    requires Inv(cfg, s) && Quiet(m, s, k) && In(s, k, Reloaded)
    ensures forall r | r in s.backups[k].refs ::
              exists p :: ChosenFor(s.backups[k].gateMarks, s.backups[k].reloaded, r.0, p) && Enabled(cfg, s, BFindPack(k, p))
  {
    InvParts(cfg, s);
    hide Inv, Safe, IndexInv, Supersession, Listed, ChosenFor, PruneInv, RebuildsInv;
    var b := s.backups[k];
    forall r | r in b.refs ensures exists p :: ChosenFor(b.gateMarks, b.reloaded, r.0, p) && Enabled(cfg, s, BFindPack(k, p)) {
      var p := ChosenIsUnmarked(m, b.reloaded, r.0, r.1);
      assert p in b.reloaded;
      assert Enabled(cfg, s, BFindPack(k, p));
    }
  }

  lemma TreesCanBeConfirmed(cfg: Config, m: map<Obj, Time>, s: State, k: nat)
    requires Quiet(m, s, k) && In(s, k, Verified)
    ensures forall t | t in s.backups[k].seen && MustConfirm(cfg, s.backups[k], t) :: Enabled(cfg, s, BConfirmTree(k, t))
  {
    hide Listed;
  }

  /** The pack chosen is unmarked where some holder is. */
  lemma ChosenIsUnmarked(marks: map<Obj, Time>, ps: set<Pack>, c: Chunk, q: Pack) returns (p: Pack)
    requires q in ps && c in q.chunks && PackObj(q) !in marks
    requires forall x | PackObj(x) in marks && x.name == q.name :: x == q
    ensures p in ps && ChosenFor(marks, ps, c, p) && PackObj(p) !in marks
  {
    SomeHolderIsChosen(marks, ps, {c}, c);
    p :| p in NeededPacks(marks, ps, {c}) && c in p.chunks;
    assert q.name in HolderNames(ps, c) && q.name !in MarkedNames(marks);
    assert RankLeq(MarkedNames(marks), p.name, q.name);
  }

  /** Of the blobs that a prune has read, few stay in effect once it is done with the index. */
  lemma IndexStaysShort(cfg: Config, s: State, a: Action)
    requires Inv(cfg, s) && (a.PWriteIndex? || a.PKeepIndex?) && EnabledPrune(cfg, s, a)
    ensures var s' := ApplyPrune(cfg, s, a);
            |set b | b in s.prune.plan.blobs && Effective(s'.objs, b)| <= MAX_EFFECTIVE_BLOBS
  {
    InvParts(cfg, s);
    hide Inv, IndexInv, Safe, RebuildsInv, NoPhantoms, Repacked, Supersession, Names;
    var s', bs := ApplyPrune(cfg, s, a), s.prune.plan.blobs;
    var left := set b | b in bs && Effective(s'.objs, b);
    if a.PWriteIndex? {
      var blob := NewIndex(s.prune.plan, s.prune.stage.newPacks, a.nonce);
      assert IndexObj(blob) in s'.objs && blob.supersedes == bs;
      assert left == {};
    } else {
      assert left == EffectiveOf(bs);
    }
  }
}
