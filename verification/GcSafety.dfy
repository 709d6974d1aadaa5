/** The garbage collector never takes what a snapshot needs, in any run. */
module GcSafety {
  import opened Objects
  import opened GcMachine
  import opened GcIndexHistory
  import opened GcInvariant
  import opened GcSteps
  import opened GcPruneSteps
  import opened GcRebuildSteps

  lemma BackupIsSafe(cfg: Config, s: State, a: Action)
    requires cfg.Valid() && Inv(cfg, s) && OfBackup(a) && EnabledBackup(cfg, s, a) && Environment(cfg, s, a)
    ensures Safe(cfg, ApplyBackup(cfg, s, a))
  {
    hide Safe, RebuildsInv, History, Names, Supersession, Listings, PruneListing, EnabledBackup, ApplyBackup,
         GraceCoversBackup, CommitInMargin, DeleteStillDead, RebuildApart;
    match a
    case BStart(k) => StepBStart(cfg, s, k);
    case BListMarks(k) => StepBListMarks(cfg, s, k);
    case BLoadIndex(k) => StepBLoadIndex(cfg, s, k);
    case BReuse(k, c, p) => StepBReuse(cfg, s, k, c, p);
    case BPutPack(k, p) => StepBPutPack(cfg, s, k, p);
    case BPutTree(k, t) => StepBPutTree(cfg, s, k, t);
    case BHealTree(k, t) => StepBHealTree(cfg, s, k, t);
    case BTouch(k, t) => StepBTouch(cfg, s, k, t);
    case BFinish(k, nonce) => StepBFinish(cfg, s, k, nonce);
    case BConfirmTree(k, t) => StepBConfirmTree(cfg, s, k, t);
    case BCommit(k, key, roots) => StepBCommit(cfg, s, k, key, roots);
    case BStop(k) => StepBStop(cfg, s, k);
    case _ => StepGate(cfg, s, a);
  }

  lemma PruneIsSafe(cfg: Config, s: State, a: Action)
    requires Inv(cfg, s) && OfPrune(a) && EnabledPrune(cfg, s, a) && Environment(cfg, s, a)
    ensures Safe(cfg, ApplyPrune(cfg, s, a))
  {
    hide Safe, RebuildsInv, Names, Supersession, Listings, PruneListing, History, EnabledPrune, ApplyPrune,
         GraceCoversBackup, CommitInMargin, DeleteStillDead, RebuildApart;
    match a
    case PLoad => StepPLoad(cfg, s);
    case PWalk => StepPWalk(cfg, s);
    case PList(kind) => StepPList(cfg, s, kind);
    case PDecide(blocked, repack) => StepPDecide(cfg, s, blocked, repack);
    case PPutPack(p) => StepPPutPack(cfg, s, p);
    case PWriteIndex(nonce, failed) => StepPWriteIndex(cfg, s, nonce, failed);
    case PKeepIndex(failed) => StepPKeepIndex(cfg, s, failed);
    case PCheck(o) => StepPCheck(cfg, s, o);
    case PDelete(o) => StepPDelete(cfg, s, o);
    case PSkip(o) => StepPSkip(cfg, s, o);
    case PDeleteTouch(t) => StepPDeleteTouch(cfg, s, t);
    case PUnmark(o) => StepPUnmark(cfg, s, o);
    case PMark(o) => StepPMark(cfg, s, o);
    case PFindOrphan(t) => StepPFindOrphan(cfg, s, t);
    case PSweep(t) => StepPSweep(cfg, s, t);
    case PNext => StepPNext(cfg, s);
    case PStop => StepPStop(cfg, s);
  }

  lemma StepInv(cfg: Config, s: State, a: Action)
    requires cfg.Valid() && Inv(cfg, s) && Enabled(cfg, s, a) && Environment(cfg, s, a)
    ensures Inv(cfg, Apply(cfg, s, a))
  {
    hide IndexInv, Safe, RebuildsInv, Environment, EnabledBackup, EnabledRebuild, EnabledPrune,
         ApplyBackup, ApplyRebuild, ApplyPrune;
    StepKeepsIndex(cfg, s, a);
    StepKeepsRebuilds(cfg, s, a);
    if OfPrune(a) {
      PruneIsSafe(cfg, s, a);
    } else if OfBackup(a) {
      BackupIsSafe(cfg, s, a);
    } else if OfRebuild(a) {
      StepRebuild(cfg, s, a);
    } else if a.Tick? {
      StepTick(cfg, s, a.d);
    } else {
      StepForget(cfg, s, a.key);
    }
  }

  lemma InitInv(cfg: Config, s: State)
    requires Init(s)
    ensures Inv(cfg, s)
  {
  }

  lemma InvIsIntact(cfg: Config, s: State)
    requires Inv(cfg, s)
    ensures Intact(s)
  {
    hide IndexInv, RebuildsInv, Listed, PruneInv, BackupsInv;
    forall t | t in LiveTrees(s.snaps)
      ensures TreeObj(t) in s.objs && forall c | c in t.chunks :: ChunkStored(s, c)
    {
      assert TreeSafe(cfg, s, t);
      forall c | c in t.chunks ensures ChunkStored(s, c) {
        WalkedChunkListed(cfg, s, c);
      }
    }
  }

  // ---------- runs ----------

  lemma {:induction false} RunInv(cfg: Config, s: State, run: seq<Action>)
    requires cfg.Valid() && Inv(cfg, s) && Runs(cfg, s, run) && Promised(cfg, s, run)
    ensures Inv(cfg, After(cfg, s, run))
    decreases |run|
  {
    hide Inv, Environment, Enabled, Apply;
    if run != [] {
      StepInv(cfg, s, run[0]);
      RunInv(cfg, Apply(cfg, s, run[0]), run[1..]);
    }
  }

  /** In every state of every run, every tree of every snapshot is stored, every one of its
      chunks is in a stored pack that the index lists, and the index lists no pack that is gone. */
  lemma SnapshotsStayIntact(cfg: Config, s: State, run: seq<Action>)
    requires cfg.Valid() && Init(s) && Runs(cfg, s, run) && Promised(cfg, s, run)
    ensures Intact(After(cfg, s, run))
    ensures NoPhantoms(After(cfg, s, run).objs)
  {
    hide Runs, Promised, After, Intact;
    InitInv(cfg, s);
    RunInv(cfg, s, run);
    InvIsIntact(cfg, After(cfg, s, run));
  }

  /** Whatever stored pack a reader picks among the listed holders of a chunk, it is there. */
  lemma AnyListedHolderIsStored(cfg: Config, s: State, run: seq<Action>, t: Tree, c: Chunk, p: Pack)
    requires cfg.Valid() && Init(s) && Runs(cfg, s, run) && Promised(cfg, s, run)
    requires t in LiveTrees(After(cfg, s, run).snaps) && c in t.chunks
    requires Listed(After(cfg, s, run).objs, p) && c in p.chunks
    ensures PackObj(p) in After(cfg, s, run).objs
  {
    SnapshotsStayIntact(cfg, s, run);
  }
}
