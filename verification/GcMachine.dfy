/** The lock-free garbage collector and the backups that run beside it, as one
  state machine (prune.rs, backup.rs).

  Every action is one request to the store, or one listing. Any number of
  backups interleave with one prune. What a client only decides in memory is an
  argument of its action: the theorems hold for every choice.
 */
module GcMachine {
  import opened Objects
  import opened ChunkTable

  /** `GRACE_SAFETY_MARGIN`: one hour. */
  const HOUR: nat := 3600

  /** `MAX_EFFECTIVE_BLOBS` */
  const MAX_EFFECTIVE_BLOBS: nat := 64

  datatype Config = Config(backupGrace: nat, pruneGrace: nat) {
    /** The configuration check: a backup must not believe in a longer grace than prune gives. */
    ghost predicate Valid() {
      backupGrace <= pruneGrace
    }

    /** The lesser of an hour and half the grace. */
    function Margin(): (m: nat)
      ensures m <= HOUR && 2 * m <= backupGrace && (m == HOUR || 2 * m + 1 >= backupGrace)
    {
      if HOUR <= backupGrace / 2 then HOUR else backupGrace / 2
    }
  }

  /** After `Prepared` comes the commit gate: it reads the clock, lists the marks, reloads the index,
      looks at the packs, and then at the trees. */
  datatype Phase = Started | MarksListed | Working | Prepared | Gated | Verifying | Reloaded | Verified

  datatype Backup = Backup(
    phase: Phase,
    started: Time,
    marksAtStart: map<Obj, Time>,
    /** Packs the index listed when it was loaded and that were not marked: dedup may use them. */
    avail: set<Pack>,
    /** Chunks found in an existing pack instead of being written. */
    refs: set<(Chunk, Pack)>,
    own: set<Pack>,
    seen: set<Tree>,
    /** Trees whose `touch/` write is still to come. */
    toTouch: set<Tree>,
    gateTime: Time,
    gateMarks: map<Obj, Time>,
    /** Packs the reloaded index lists, and those of them a HEAD has found. */
    reloaded: set<Pack>,
    found: set<Pack>,
    /** Trees whose existence and touch the commit gate has confirmed. */
    confirmed: set<Tree>)

  datatype Plan = Plan(
    planNow: Time,
    blobs: set<Blob>,
    referenced: set<Chunk>,
    needed: set<Pack>,
    repack: set<Pack>,
    phantoms: set<Pack>,
    toDelete: map<Obj, Time>,
    toUnmark: set<Obj>,
    toMark: set<Obj>)

  datatype Stage =
    | Repacking(newPacks: set<Pack>)
    /** `pending`: not yet looked at. `cleared`: the HEAD checks said dead, the DELETE is to come. */
    | Deleting(pending: set<Obj>, cleared: set<Obj>, touchDel: set<Tree>, unmark: set<Obj>)
    | Unmarking(unmark: set<Obj>)
    | Marking(mark: set<Obj>)
    | Sweeping(orphans: set<Tree>)

  datatype Prune =
    | Idle
    | Loaded(planNow: Time, blobs: set<Blob>)
    /** `listed` grows by one prefix at a time; `kinds` says which are done. */
    | Walked(planNow: Time, blobs: set<Blob>, live: set<Tree>, referenced: set<Chunk>,
             listed: map<Obj, Time>, kinds: set<Kind>)
    | Running(plan: Plan, stage: Stage)

  /** The prefixes that prune lists. */
  datatype Kind = Packs | Trees | Indexes

  function KindOf(o: Obj): Kind {
    match o
    case PackObj(_) => Packs
    case TreeObj(_) => Trees
    case IndexObj(_) => Indexes
  }

  /** `rebuild_index`: the blobs stored when it began, then the packs, whose trailers it reads one by one. */
  datatype Rebuild =
    | BlobsListed(existing: set<Blob>)
    | PacksListed(existing: set<Blob>, todo: set<Pack>, read: set<Pack>)

  ghost function PlanNow(p: Prune): Time
    requires !p.Idle?
  {
    match p
    case Loaded(planNow, _) => planNow
    case Walked(planNow, _, _, _, _, _) => planNow
    case Running(plan, _) => plan.planNow
  }

  datatype State = State(
    now: Time,
    /** `packs/`, `trees/`, `indexes/`: every object with its modification time. */
    objs: map<Obj, Time>,
    touches: map<Tree, Time>,
    marks: map<Obj, Time>,
    snaps: map<nat, set<Tree>>,
    /** History: packs and blobs ever written (their nonces never repeat). */
    used: set<Obj>,
    backups: map<nat, Backup>,
    rebuilds: map<nat, Rebuild>,
    prune: Prune)

  datatype Action =
    | Tick(d: nat)
    | Forget(key: nat)
    // backup
    | BStart(k: nat)
    | BListMarks(k: nat)
    | BLoadIndex(k: nat)
    | BReuse(k: nat, c: Chunk, p: Pack)
    | BPutPack(k: nat, p: Pack)
    | BPutTree(k: nat, t: Tree)
    | BHealTree(k: nat, t: Tree)
    | BTouch(k: nat, t: Tree)
    | BFinish(k: nat, nonce: nat)
    | BGateOpen(k: nat)
    | BGateMarks(k: nat)
    | BReload(k: nat)
    | BFindPack(k: nat, p: Pack)
    | BVerifyChunks(k: nat)
    | BConfirmTree(k: nat, t: Tree)
    | BCommit(k: nat, key: nat, roots: set<Tree>)
    | BStop(k: nat)
    // rebuild-index
    | RListBlobs(k: nat)
    | RListPacks(k: nat)
    | RReadPack(k: nat, p: Pack)
    | RWrite(k: nat, nonce: nat)
    | RStop(k: nat)
    // prune
    | PLoad
    | PWalk
    | PList(kind: Kind)
    | PDecide(blocked: set<Obj>, repack: set<Pack>)
    | PPutPack(p: Pack)
    | PWriteIndex(nonce: nat, failed: set<Pack>)
    | PKeepIndex(failed: set<Pack>)
    | PCheck(o: Obj)
    | PDelete(o: Obj)
    | PSkip(o: Obj)
    | PDeleteTouch(t: Tree)
    | PUnmark(o: Obj)
    | PMark(o: Obj)
    | PFindOrphan(t: Tree)
    | PSweep(t: Tree)
    | PNext
    | PStop

  predicate OfBackup(a: Action) {
    a.BStart? || a.BListMarks? || a.BLoadIndex? || a.BReuse? || a.BPutPack? || a.BPutTree? || a.BHealTree?
    || a.BTouch? || a.BFinish? || a.BGateOpen? || a.BGateMarks? || a.BReload? || a.BFindPack? || a.BVerifyChunks?
    || a.BConfirmTree? || a.BCommit? || a.BStop?
  }

  predicate OfRebuild(a: Action) {
    a.RListBlobs? || a.RListPacks? || a.RReadPack? || a.RWrite? || a.RStop?
  }

  predicate OfPrune(a: Action) {
    a.PLoad? || a.PWalk? || a.PList? || a.PDecide? || a.PPutPack? || a.PWriteIndex? || a.PKeepIndex? || a.PCheck?
    || a.PDelete? || a.PSkip? || a.PDeleteTouch? || a.PUnmark? || a.PMark? || a.PFindOrphan? || a.PSweep?
    || a.PNext? || a.PStop?
  }

  // ---------- views of the store ----------

  ghost function Blobs(objs: map<Obj, Time>): set<Blob> {
    set o | o in objs && o.IndexObj? :: o.blob
  }

  ghost function ListedPacks(objs: map<Obj, Time>): set<Pack> {
    IndexedIn(Blobs(objs))
  }

  ghost function LiveTrees(snaps: map<nat, set<Tree>>): set<Tree> {
    set k, r, t | k in snaps && r in snaps[k] && t in Reach(r) :: t
  }

  ghost function ChunksOf(ts: set<Tree>): set<Chunk> {
    set t, c | t in ts && c in t.chunks :: c
  }

  /** The store shows that `o` was written or touched at or after `m`. Times are whole
      seconds; the same second counts as after. */
  ghost predicate Evidence(s: State, o: Obj, m: Time) {
    || (o in s.objs && m <= s.objs[o])
    || (o.TreeObj? && o.tree in s.touches && m <= s.touches[o.tree])
  }

  /** `head_tree_and_touch` */
  ghost predicate TouchedSince(s: State, t: Tree, m: Time) {
    TreeObj(t) in s.objs && t in s.touches && m <= s.touches[t]
  }

  ghost predicate Holder(ps: set<Pack>, c: Chunk) {
    exists p :: p in ps && c in p.chunks
  }

  ghost predicate Covered(b: Backup, c: Chunk) {
    Holder(b.own, c) || exists p :: (c, p) in b.refs
  }

  /** Commit must look at this tree: it was marked when the backup began, or it carries a mark
      that has expired by now. */
  ghost predicate MustConfirm(cfg: Config, b: Backup, t: Tree) {
    TreeObj(t) in b.marksAtStart || GateExpired(cfg, b, TreeObj(t))
  }

  ghost predicate GateExpired(cfg: Config, b: Backup, o: Obj) {
    o in b.gateMarks && b.gateMarks[o] + cfg.backupGrace <= b.gateTime
  }

  // ---------- the one rule that picks a pack for a chunk ----------

  ghost function MarkedNames(marks: map<Obj, Time>): set<Id> {
    set o | o in marks && o.PackObj? :: o.pack.name
  }

  ghost function HolderNames(ps: set<Pack>, c: Chunk): set<Id> {
    set p | p in ps && c in p.chunks :: p.name
  }

  /** `p` is the holder of `c` that backup and prune agree on: unmarked before marked, then by name. */
  ghost predicate ChosenFor(marks: map<Obj, Time>, ps: set<Pack>, c: Chunk, p: Pack) {
    p in ps && c in p.chunks && IsCanonical(MarkedNames(marks), HolderNames(ps, c), p.name)
  }

  /** The packs that some chunk of `cs` is found in. */
  ghost function NeededPacks(marks: map<Obj, Time>, ps: set<Pack>, cs: set<Chunk>): set<Pack> {
    set p, c | p in ps && c in cs && ChosenFor(marks, ps, c, p) :: p
  }

  /** No two sealed packs share a name. */
  ghost predicate NewName(s: State, p: Pack) {
    forall q | PackObj(q) in s.used :: q.name != p.name
  }

  // ---------- prune decisions ----------

  ghost predicate Live(w: Prune, needed: set<Pack>, o: Obj)
    requires w.Walked?
  {
    match o
    case PackObj(p) => p in needed
    case TreeObj(t) => t in w.live
    case IndexObj(b) => EffectiveIn(w.blobs, b)
  }

  /** The packs of the index that the listing found. */
  ghost function Holdable(w: Prune): set<Pack>
    requires w.Walked?
  {
    set p | p in IndexedIn(w.blobs) && PackObj(p) in w.listed
  }

  ghost function Needed(s: State): set<Pack>
    requires s.prune.Walked?
  {
    NeededPacks(s.marks, Holdable(s.prune), s.prune.referenced)
  }

  ghost function Decide(cfg: Config, s: State, blocked: set<Obj>, repack: set<Pack>): Plan
    requires s.prune.Walked?
  {
    var w := s.prune;
    var needed := Needed(s);
    var dead := set o | o in s.marks && o in w.listed && !Live(w, needed, o)
                        && s.marks[o] + cfg.pruneGrace <= w.planNow && o !in blocked;
    var unmark := set o | o in s.marks && (o !in w.listed || Live(w, needed, o));
    var unneeded := set o | o in w.listed && o !in s.marks && !Live(w, needed, o)
                         && w.listed[o] + cfg.pruneGrace <= w.planNow;
    var moved := set p | p in repack :: PackObj(p);
    Plan(w.planNow, w.blobs, w.referenced, needed, repack,
         set p | p in IndexedIn(w.blobs) && PackObj(p) !in w.listed,
         map o | o in dead :: s.marks[o],
         unmark,
         unneeded + moved)
  }

  ghost function DeletedPacks(plan: Plan): set<Pack> {
    set o | o in plan.toDelete.Keys && o.PackObj? && o.pack in IndexedIn(plan.blobs) :: o.pack
  }

  ghost predicate NeedsRewrite(plan: Plan, newPacks: set<Pack>) {
    DeletedPacks(plan) != {} || newPacks != {} || plan.phantoms != {}
    || |EffectiveOf(plan.blobs)| > MAX_EFFECTIVE_BLOBS
  }

  ghost function NewIndex(plan: Plan, newPacks: set<Pack>, nonce: nat): Blob {
    Blob(nonce, newPacks + (IndexedIn(plan.blobs) - DeletedPacks(plan) - plan.phantoms), plan.blobs)
  }

  /** What repacking has to achieve: every chunk in use has a pack that is not on its way out. Packs that could
      not be read (`failed`) stay as they are. */
  ghost predicate Repacked(plan: Plan, newPacks: set<Pack>, failed: set<Pack>) {
    failed <= plan.repack && forall c | c in plan.referenced :: Holder(plan.needed - (plan.repack - failed) + newPacks, c)
  }

  ghost function WithoutFailed(plan: Plan, failed: set<Pack>): Plan {
    plan.(toMark := plan.toMark - set p | p in failed :: PackObj(p))
  }

  ghost function FirstDeleting(plan: Plan): Stage {
    Deleting(plan.toDelete.Keys, {}, {}, plan.toUnmark)
  }

  /** Nothing is left to do in this part of the work. */
  predicate StageDone(stage: Stage) {
    match stage
    case Repacking(_) => false
    case Deleting(pending, cleared, touchDel, _) => pending == {} && cleared == {} && touchDel == {}
    case Unmarking(unmark) => unmark == {}
    case Marking(mark) => mark == {}
    case Sweeping(_) => true
  }

  function AfterStage(p: Prune): Prune
    requires p.Running? && !p.stage.Repacking?
  {
    match p.stage
    case Deleting(_, _, _, unmark) => p.(stage := Unmarking(unmark))
    case Unmarking(_) => p.(stage := Marking(p.plan.toMark))
    case Marking(_) => p.(stage := Sweeping({}))
    case Sweeping(_) => Idle
  }

  // ---------- transitions ----------

  ghost predicate In(s: State, k: nat, phase: Phase) {
    k in s.backups && s.backups[k].phase == phase
  }

  ghost predicate AtStage(s: State) {
    s.prune.Running?
  }

  ghost predicate EnabledBackup(cfg: Config, s: State, a: Action)
    requires OfBackup(a)
  {
    match a
    case BStart(k) => k !in s.backups
    case BListMarks(k) => In(s, k, Started)
    case BLoadIndex(k) => In(s, k, MarksListed)
    case BReuse(k, c, p) => In(s, k, Working) && p in s.backups[k].avail && c in p.chunks
    case BPutPack(k, p) => In(s, k, Working) && NewName(s, p)
    case BPutTree(k, t) => In(s, k, Working) && t !in s.backups[k].seen && t.links <= s.backups[k].seen
    case BHealTree(k, t) => In(s, k, Working) && t in s.backups[k].toTouch
    case BTouch(k, t) => In(s, k, Working) && t in s.backups[k].toTouch
    case BFinish(k, nonce) =>
      && In(s, k, Working)
      && s.backups[k].toTouch == {}
      && (forall c | c in ChunksOf(s.backups[k].seen) :: Covered(s.backups[k], c))
      && IndexObj(Blob(nonce, s.backups[k].own, {})) !in s.used
    case BGateOpen(k) =>
      In(s, k, Prepared) && s.now - s.backups[k].started + cfg.Margin() < cfg.backupGrace
    case BGateMarks(k) => In(s, k, Gated)
    case BReload(k) => In(s, k, Verifying)
    case BFindPack(k, p) =>
      In(s, k, Reloaded) && PackObj(p) in s.objs && !GateExpired(cfg, s.backups[k], PackObj(p))
    case BVerifyChunks(k) =>
      && In(s, k, Reloaded)
      && (forall r | r in s.backups[k].refs ::
            exists p :: p in s.backups[k].found && ChosenFor(s.backups[k].gateMarks, s.backups[k].reloaded, r.0, p))
    case BConfirmTree(k, t) =>
      && In(s, k, Verified)
      && t in s.backups[k].seen && MustConfirm(cfg, s.backups[k], t)
      && (TreeObj(t) in s.backups[k].marksAtStart ==> TouchedSince(s, t, s.backups[k].marksAtStart[TreeObj(t)]))
      && (GateExpired(cfg, s.backups[k], TreeObj(t)) ==>
            TouchedSince(s, t, s.backups[k].gateMarks[TreeObj(t)]))
    case BCommit(k, key, roots) =>
      && In(s, k, Verified)
      && (forall t | t in s.backups[k].seen && MustConfirm(cfg, s.backups[k], t) :: t in s.backups[k].confirmed)
      && key !in s.snaps && roots <= s.backups[k].seen
    case BStop(k) => k in s.backups
  }

  ghost predicate EnabledRebuild(s: State, a: Action)
    requires OfRebuild(a)
  {
    match a
    case RListBlobs(k) => k !in s.rebuilds
    case RListPacks(k) => k in s.rebuilds && s.rebuilds[k].BlobsListed?
    case RReadPack(k, p) =>
      k in s.rebuilds && s.rebuilds[k].PacksListed? && p in s.rebuilds[k].todo && PackObj(p) in s.objs
    case RWrite(k, nonce) =>
      && k in s.rebuilds && s.rebuilds[k].PacksListed? && s.rebuilds[k].todo == {}
      && IndexObj(Rebuilt(s.rebuilds[k], nonce)) !in s.used
    case RStop(k) => k in s.rebuilds
  }

  ghost predicate EnabledPrune(cfg: Config, s: State, a: Action)
    requires OfPrune(a)
  {
    match a
    case PLoad => s.prune.Idle?
    case PWalk =>
      && s.prune.Loaded?
      && (forall t | t in LiveTrees(s.snaps) :: TreeObj(t) in s.objs)
      && (forall c | c in ChunksOf(LiveTrees(s.snaps)) :: Holder(IndexedIn(s.prune.blobs), c))
    case PList(kind) => s.prune.Walked? && kind !in s.prune.kinds
    case PDecide(blocked, repack) =>
      && s.prune.Walked? && s.prune.kinds == {Packs, Trees, Indexes}
      && (forall c | c in s.prune.referenced :: Holder(Holdable(s.prune), c))
      && (forall p | p in repack :: p in Needed(s) && PackObj(p) !in s.marks && PackObj(p) in s.prune.listed
                                    && s.prune.listed[PackObj(p)] + cfg.pruneGrace <= s.prune.planNow)
    case PPutPack(p) => AtStage(s) && s.prune.stage.Repacking? && NewName(s, p)
    case PWriteIndex(nonce, failed) =>
      && AtStage(s) && s.prune.stage.Repacking?
      && Repacked(s.prune.plan, s.prune.stage.newPacks, failed)
      && NeedsRewrite(s.prune.plan, s.prune.stage.newPacks)
      && IndexObj(NewIndex(s.prune.plan, s.prune.stage.newPacks, nonce)) !in s.used
    case PKeepIndex(failed) =>
      && AtStage(s) && s.prune.stage.Repacking?
      && Repacked(s.prune.plan, s.prune.stage.newPacks, failed)
      && !NeedsRewrite(s.prune.plan, s.prune.stage.newPacks)
    case PCheck(o) => AtStage(s) && s.prune.stage.Deleting? && o in s.prune.stage.pending && o in s.prune.plan.toDelete
    case PDelete(o) => AtStage(s) && s.prune.stage.Deleting? && o in s.prune.stage.cleared
    case PSkip(o) => AtStage(s) && s.prune.stage.Deleting? && o in s.prune.stage.cleared
    case PDeleteTouch(t) => AtStage(s) && s.prune.stage.Deleting? && t in s.prune.stage.touchDel
    case PUnmark(o) => AtStage(s) && s.prune.stage.Unmarking? && o in s.prune.stage.unmark
    case PMark(o) => AtStage(s) && s.prune.stage.Marking? && o in s.prune.stage.mark
    case PFindOrphan(t) =>
      AtStage(s) && s.prune.stage.Sweeping? && t in s.touches && TreeObj(t) !in s.objs
    case PSweep(t) => AtStage(s) && s.prune.stage.Sweeping? && t in s.prune.stage.orphans
    case PNext => AtStage(s) && StageDone(s.prune.stage)
    case PStop => !s.prune.Idle?
  }

  ghost predicate Enabled(cfg: Config, s: State, a: Action) {
    if OfBackup(a) then EnabledBackup(cfg, s, a)
    else if OfRebuild(a) then EnabledRebuild(s, a)
    else if OfPrune(a) then EnabledPrune(cfg, s, a)
    else a.Forget? ==> a.key in s.snaps
  }

  /** After the HEAD requests for `o`: gone or revived objects lose their mark, dead ones are to be deleted. */
  ghost function Checked(s: State, o: Obj): Stage
    requires s.prune.Running? && s.prune.stage.Deleting? && o in s.prune.plan.toDelete
  {
    var g := s.prune.stage;
    if o !in s.objs || Evidence(s, o, s.prune.plan.toDelete[o])
    then g.(pending := g.pending - {o}, unmark := g.unmark + {o})
    else g.(pending := g.pending - {o}, cleared := g.cleared + {o})
  }

  ghost function SetBackup(s: State, k: nat, b: Backup): State {
    s.(backups := s.backups[k := b])
  }

  ghost function SetStage(s: State, stage: Stage): State
    requires s.prune.Running?
  {
    s.(prune := s.prune.(stage := stage))
  }

  ghost function SetRebuild(s: State, k: nat, r: Rebuild): State {
    s.(rebuilds := s.rebuilds[k := r])
  }

  ghost function Rebuilt(r: Rebuild, nonce: nat): Blob
    requires r.PacksListed?
  {
    Blob(nonce, r.read, r.existing)
  }

  ghost function PacksOf(objs: map<Obj, Time>): set<Pack> {
    set o | o in objs && o.PackObj? :: o.pack
  }

  ghost function PutTree(s: State, k: nat, t: Tree): State
    requires k in s.backups
  {
    var b := s.backups[k];
    var absent := TreeObj(t) !in s.objs;
    var touch := !absent || TreeObj(t) in b.marksAtStart;
    var b' := b.(seen := b.seen + {t}, toTouch := if touch then b.toTouch + {t} else b.toTouch);
    SetBackup(s, k, b').(objs := if absent then s.objs[TreeObj(t) := s.now] else s.objs)
  }

  ghost function Finish(s: State, k: nat, nonce: nat): State
    requires k in s.backups
  {
    var b := s.backups[k];
    var s' := SetBackup(s, k, b.(phase := Prepared));
    if b.own == {} then s' else
      var blob := IndexObj(Blob(nonce, b.own, {}));
      s'.(objs := s.objs[blob := s.now], used := s.used + {blob})
  }

  ghost function ApplyBackup(cfg: Config, s: State, a: Action): State
    requires OfBackup(a) && EnabledBackup(cfg, s, a)
  {
    match a
    case BStart(k) =>
      SetBackup(s, k, Backup(Started, s.now, map[], {}, {}, {}, {}, {}, s.now, map[], {}, {}, {}))
    case BListMarks(k) =>
      SetBackup(s, k, s.backups[k].(phase := MarksListed, marksAtStart := s.marks))
    case BLoadIndex(k) =>
      var b := s.backups[k];
      SetBackup(s, k, b.(phase := Working,
                         avail := set p | p in ListedPacks(s.objs) && PackObj(p) !in b.marksAtStart))
    case BReuse(k, c, p) =>
      SetBackup(s, k, s.backups[k].(refs := s.backups[k].refs + {(c, p)}))
    case BPutPack(k, p) =>
      SetBackup(s, k, s.backups[k].(own := s.backups[k].own + {p}))
      .(objs := s.objs[PackObj(p) := s.now], used := s.used + {PackObj(p)})
    case BPutTree(k, t) => PutTree(s, k, t)
    case BHealTree(k, t) => s.(objs := s.objs[TreeObj(t) := s.now])
    case BTouch(k, t) =>
      SetBackup(s, k, s.backups[k].(toTouch := s.backups[k].toTouch - {t}))
      .(touches := s.touches[t := s.now])
    case BFinish(k, nonce) => Finish(s, k, nonce)
    case BGateOpen(k) => SetBackup(s, k, s.backups[k].(phase := Gated, gateTime := s.now))
    case BGateMarks(k) => SetBackup(s, k, s.backups[k].(phase := Verifying, gateMarks := s.marks))
    case BReload(k) => SetBackup(s, k, s.backups[k].(phase := Reloaded, reloaded := ListedPacks(s.objs)))
    case BFindPack(k, p) => SetBackup(s, k, s.backups[k].(found := s.backups[k].found + {p}))
    case BVerifyChunks(k) => SetBackup(s, k, s.backups[k].(phase := Verified))
    case BConfirmTree(k, t) =>
      SetBackup(s, k, s.backups[k].(confirmed := s.backups[k].confirmed + {t}))
    case BCommit(k, key, roots) => s.(snaps := s.snaps[key := roots], backups := s.backups - {k})
    case BStop(k) => s.(backups := s.backups - {k})
  }

  ghost function ApplyRebuild(s: State, a: Action): State
    requires OfRebuild(a) && EnabledRebuild(s, a)
  {
    match a
    case RListBlobs(k) => SetRebuild(s, k, BlobsListed(Blobs(s.objs)))
    case RListPacks(k) => SetRebuild(s, k, PacksListed(s.rebuilds[k].existing, PacksOf(s.objs), {}))
    case RReadPack(k, p) =>
      SetRebuild(s, k, s.rebuilds[k].(todo := s.rebuilds[k].todo - {p}, read := s.rebuilds[k].read + {p}))
    case RWrite(k, nonce) =>
      var blob := IndexObj(Rebuilt(s.rebuilds[k], nonce));
      s.(objs := s.objs[blob := s.now], used := s.used + {blob}, rebuilds := s.rebuilds - {k})
    case RStop(k) => s.(rebuilds := s.rebuilds - {k})
  }

  ghost function ApplyPrune(cfg: Config, s: State, a: Action): State
    requires OfPrune(a) && EnabledPrune(cfg, s, a)
  {
    match a
    case PLoad => s.(prune := Loaded(s.now, Blobs(s.objs)))
    case PWalk =>
      s.(prune := Walked(s.prune.planNow, s.prune.blobs, LiveTrees(s.snaps), ChunksOf(LiveTrees(s.snaps)), map[], {}))
    case PList(kind) =>
      s.(prune := s.prune.(listed := s.prune.listed + map o | o in s.objs && KindOf(o) == kind :: s.objs[o],
                           kinds := s.prune.kinds + {kind}))
    case PDecide(blocked, repack) =>
      s.(prune := Running(Decide(cfg, s, blocked, repack), Repacking({})))
    case PPutPack(p) =>
      SetStage(s, Repacking(s.prune.stage.newPacks + {p}))
      .(objs := s.objs[PackObj(p) := s.now], used := s.used + {PackObj(p)})
    case PWriteIndex(nonce, failed) =>
      var blob := IndexObj(NewIndex(s.prune.plan, s.prune.stage.newPacks, nonce));
      s.(objs := s.objs[blob := s.now], used := s.used + {blob},
         prune := Running(WithoutFailed(s.prune.plan, failed), FirstDeleting(s.prune.plan)))
    case PKeepIndex(failed) =>
      s.(prune := Running(WithoutFailed(s.prune.plan, failed), FirstDeleting(s.prune.plan)))
    case PCheck(o) => SetStage(s, Checked(s, o))
    case PDelete(o) =>
      var g := s.prune.stage;
      SetStage(s, g.(cleared := g.cleared - {o}, unmark := g.unmark + {o},
                     touchDel := if o.TreeObj? then g.touchDel + {o.tree} else g.touchDel))
      .(objs := s.objs - {o})
    case PSkip(o) => SetStage(s, s.prune.stage.(cleared := s.prune.stage.cleared - {o}))
    case PDeleteTouch(t) =>
      SetStage(s, s.prune.stage.(touchDel := s.prune.stage.touchDel - {t})).(touches := s.touches - {t})
    case PUnmark(o) =>
      SetStage(s, Unmarking(s.prune.stage.unmark - {o})).(marks := s.marks - {o})
    case PMark(o) =>
      SetStage(s, Marking(s.prune.stage.mark - {o}))
      .(marks := if o in s.marks then s.marks else s.marks[o := s.now])
    case PFindOrphan(t) => SetStage(s, Sweeping(s.prune.stage.orphans + {t}))
    case PSweep(t) => SetStage(s, Sweeping(s.prune.stage.orphans - {t})).(touches := s.touches - {t})
    case PNext => s.(prune := AfterStage(s.prune))
    case PStop => s.(prune := Idle)
  }

  ghost function Apply(cfg: Config, s: State, a: Action): State
    requires Enabled(cfg, s, a)
  {
    if OfBackup(a) then ApplyBackup(cfg, s, a)
    else if OfRebuild(a) then ApplyRebuild(s, a)
    else if OfPrune(a) then ApplyPrune(cfg, s, a)
    else match a
      case Tick(d) => s.(now := s.now + d)
      case Forget(key) => s.(snaps := s.snaps - {key})
  }

  ghost predicate Init(s: State) {
    && s.objs == map[] && s.touches == map[] && s.marks == map[] && s.snaps == map[]
    && s.used == {} && s.backups == map[] && s.rebuilds == map[] && s.prune == Idle
  }

  /** The actions can happen one after the other. */
  ghost predicate Runs(cfg: Config, s: State, run: seq<Action>)
    decreases |run|
  {
    run == [] || (Enabled(cfg, s, run[0]) && Runs(cfg, Apply(cfg, s, run[0]), run[1..]))
  }

  ghost function After(cfg: Config, s: State, run: seq<Action>): State
    requires Runs(cfg, s, run)
    decreases |run|
  {
    if run == [] then s else After(cfg, Apply(cfg, s, run[0]), run[1..])
  }

  // ---------- the environment ----------

  /** What the deployment must provide, one clause per action that needs it.
      - BFinish: the grace is longer than the longest backup.
      - BCommit: the snapshot is written within the margin after the gate looked at the clock.
      - PDelete: nothing revived the object between the HEAD requests and the DELETE.
      - PLoad, RListBlobs: prune and rebuild-index do not overlap. */
  ghost predicate GraceCoversBackup(cfg: Config, s: State, a: Action) {
    a.BFinish? && a.k in s.backups ==> s.now < s.backups[a.k].started + cfg.pruneGrace
  }

  ghost predicate CommitInMargin(cfg: Config, s: State, a: Action) {
    a.BCommit? && a.k in s.backups ==> s.now <= s.backups[a.k].gateTime + cfg.Margin()
  }

  ghost predicate DeleteStillDead(s: State, a: Action) {
    a.PDelete? && s.prune.Running? && a.o in s.prune.plan.toDelete ==>
      !Evidence(s, a.o, s.prune.plan.toDelete[a.o])
  }

  ghost predicate RebuildApart(s: State, a: Action) {
    (a.PLoad? ==> s.rebuilds == map[]) && (a.RListBlobs? ==> s.prune.Idle?)
  }

  ghost predicate Environment(cfg: Config, s: State, a: Action) {
    GraceCoversBackup(cfg, s, a) && CommitInMargin(cfg, s, a) && DeleteStillDead(s, a) && RebuildApart(s, a)
  }

  /** Every action of the run stays inside the promises. */
  ghost predicate Promised(cfg: Config, s: State, run: seq<Action>)
    requires Runs(cfg, s, run)
    decreases |run|
  {
    run == [] || (Environment(cfg, s, run[0]) && Promised(cfg, Apply(cfg, s, run[0]), run[1..]))
  }

  /** Nothing a snapshot needs is missing: its trees are stored, and every chunk is in a stored
      pack that readers of the index find. */
  ghost predicate ChunkStored(s: State, c: Chunk) {
    exists p :: Listed(s.objs, p) && c in p.chunks && PackObj(p) in s.objs
  }

  ghost predicate Intact(s: State) {
    forall t | t in LiveTrees(s.snaps) ::
      TreeObj(t) in s.objs && forall c | c in t.chunks :: ChunkStored(s, c)
  }
}
