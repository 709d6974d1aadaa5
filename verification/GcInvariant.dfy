/** The inductive invariant of the machine in GcMachine.

  A backup is viable while less than the prune grace has passed since it started:
  only a viable backup can still commit. The invariant says that prune cannot
  take away what a viable backup relies on, and that a running prune never
  condemns what a snapshot needs, also when the snapshot appeared after the walk.
 */
module GcInvariant {
  import opened Objects
  import opened GcMachine
  import opened GcIndexHistory

  // ---------- the parts of the invariant ----------

  /** Nothing carries a time from the future. */
  ghost predicate Clock(s: State) {
    && (forall o | o in s.objs :: s.objs[o] <= s.now)
    && (forall o | o in s.marks :: s.marks[o] <= s.now)
    && (forall t | t in s.touches :: s.touches[t] <= s.now)
    && (forall k | k in s.backups :: s.backups[k].started <= s.now)
    && (!s.prune.Idle? ==> PlanNow(s.prune) <= s.now)
  }

  /** Readers never meet a pack that is gone. */
  ghost predicate NoPhantoms(objs: map<Obj, Time>) {
    forall p | Listed(objs, p) :: PackObj(p) in objs
  }

  ghost predicate Viable(cfg: Config, s: State, b: Backup) {
    s.now < b.started + cfg.pruneGrace
  }

  /** Every mark is newer than the backup, or the backup saw it in its first listing. */
  ghost predicate MarksKnown(s: State, b: Backup) {
    forall o | o in s.marks ::
      b.started <= s.marks[o] || (o in b.marksAtStart && b.marksAtStart[o] == s.marks[o])
  }

  /** Stored, and whatever mark it carries is too new to be acted on, or already contradicted. */
  ghost predicate Protected(s: State, b: Backup, o: Obj) {
    && o in s.objs
    && (o in s.marks ==> b.started <= s.marks[o] || Evidence(s, o, s.marks[o]))
  }

  ghost predicate Complete(phase: Phase) {
    phase.Prepared? || AtGate(phase)
  }

  /** The gate has read the clock. */
  predicate AtGate(phase: Phase) {
    phase.Gated? || phase.Verifying? || phase.Reloaded? || phase.Verified?
  }

  ghost predicate BackupFacts(cfg: Config, s: State, b: Backup) {
    && (b.phase.Started? || MarksKnown(s, b))
    && (b.phase.Started? || b.phase.MarksListed? ==> b.avail == {} && b.own == {} && b.refs == {})
    && (b.phase.Started? || b.phase.MarksListed? ==> b.seen == {} && b.confirmed == {})
    && (forall o | o in b.marksAtStart && !o.TreeObj? :: o in s.used)
    && (forall r | r in b.refs :: r.1 in b.avail && r.0 in r.1.chunks)
    && Closed(b.seen)
    && (Complete(b.phase) ==> forall c | c in ChunksOf(b.seen) :: Covered(b, c))
    && (AtGate(b.phase) ==> b.gateTime + cfg.Margin() < b.started + cfg.backupGrace)
  }

  ghost predicate BackupSafe(s: State, b: Backup) {
    && (forall p | p in b.avail :: Listed(s.objs, p) && PackObj(p) !in b.marksAtStart)
    && (forall p | p in b.own :: PackObj(p) in s.objs && PackObj(p) !in b.marksAtStart)
    && (Complete(b.phase) ==> forall p | p in b.own :: Listed(s.objs, p))
    && (forall t | t in b.seen && TreeObj(t) !in b.marksAtStart :: TreeObj(t) in s.objs)
    && (forall t | t in b.confirmed :: Protected(s, b, TreeObj(t)))
  }

  ghost predicate BackupsInv(cfg: Config, s: State) {
    forall k | k in s.backups ::
      && BackupFacts(cfg, s, s.backups[k])
      && (Viable(cfg, s, s.backups[k]) ==> BackupSafe(s, s.backups[k]))
  }

  ghost predicate Expired(cfg: Config, s: State, planNow: Time, o: Obj) {
    o in s.marks && s.marks[o] + cfg.pruneGrace <= planNow
  }

  /** The running prune may still delete `o`. */
  ghost predicate Condemned(p: Prune, o: Obj) {
    && p.Running? && o in p.plan.toDelete
    && match p.stage {
      case Repacking(_) => true
      case Deleting(pending, cleared, _, _) => o in pending || o in cleared
      case _ => false
    }
  }

  /** The blobs prune has read, against the store now: later blobs come from backups only. */
  ghost predicate IndexView(cfg: Config, s: State, planNow: Time, bs: set<Blob>) {
    && (forall b | b in bs :: IndexObj(b) in s.objs)
    && (forall b | b in bs :: Effective(s.objs, b) <==> EffectiveIn(bs, b))
    && (forall b, p | IndexObj(b) in s.objs && b !in bs && p in b.packs :: !Expired(cfg, s, planNow, PackObj(p)))
  }

  /** These touches may go: a tree that came back since is newer than any mark on it. */
  ghost predicate TouchFree(s: State, ts: set<Tree>) {
    forall t | t in ts && TreeObj(t) in s.objs && TreeObj(t) in s.marks ::
      s.marks[TreeObj(t)] <= s.objs[TreeObj(t)]
  }

  ghost predicate PlanMarks(cfg: Config, s: State, plan: Plan, os: set<Obj>) {
    forall o | o in os ::
      && o in plan.toDelete && o in s.marks && s.marks[o] == plan.toDelete[o]
      && Expired(cfg, s, plan.planNow, o)
  }

  ghost predicate StageInv(cfg: Config, s: State, plan: Plan, stage: Stage) {
    match stage
    case Repacking(newPacks) =>
      && IndexView(cfg, s, plan.planNow, plan.blobs)
      && PlanMarks(cfg, s, plan, plan.toDelete.Keys)
      && plan.phantoms == {}
      && (forall p | p in newPacks :: PackObj(p) in s.objs && PackObj(p) !in s.marks)
    case Deleting(pending, cleared, touchDel, _) =>
      && PlanMarks(cfg, s, plan, pending + cleared)
      && (forall p | PackObj(p) in pending + cleared :: !Listed(s.objs, p))
      && TouchFree(s, touchDel)
    case Unmarking(_) => true
    case Marking(mark) => mark <= plan.toMark
    case Sweeping(orphans) => TouchFree(s, orphans)
  }

  ghost predicate PruneInv(cfg: Config, s: State) {
    match s.prune
    case Idle => true
    case Loaded(planNow, bs) => IndexView(cfg, s, planNow, bs)
    case Walked(planNow, bs, _, referenced, listed, kinds) =>
      && IndexView(cfg, s, planNow, bs)
      && (forall c | c in referenced :: Holder(IndexedIn(bs), c))
      && (Packs in kinds ==> forall p | p in IndexedIn(bs) :: PackObj(p) in listed)
    case Running(plan, stage) => StageInv(cfg, s, plan, stage)
  }

  /** A tree a snapshot needs: prune knows it, or has no expired mark that stands against it. */
  ghost predicate TreeSafe(cfg: Config, s: State, t: Tree) {
    && TreeObj(t) in s.objs
    && (s.prune.Walked? && t !in s.prune.live && Expired(cfg, s, s.prune.planNow, TreeObj(t)) ==>
          Evidence(s, TreeObj(t), s.marks[TreeObj(t)]))
    && (Condemned(s.prune, TreeObj(t)) ==> Evidence(s, TreeObj(t), s.prune.plan.toDelete[TreeObj(t)]))
  }

  /** A chunk a snapshot needs is listed in a pack that this prune will not delete. */
  ghost predicate ChunkSafe(cfg: Config, s: State, c: Chunk) {
    || (s.prune.Walked? && c in s.prune.referenced)
    || exists p ::
      && Listed(s.objs, p) && c in p.chunks
      && (s.prune.Walked? ==> !Expired(cfg, s, s.prune.planNow, PackObj(p)))
      && !Condemned(s.prune, PackObj(p))
  }

  ghost predicate SnapsInv(cfg: Config, s: State) {
    forall t | t in LiveTrees(s.snaps) ::
      TreeSafe(cfg, s, t) && forall c | c in t.chunks :: ChunkSafe(cfg, s, c)
  }

  ghost predicate Safe(cfg: Config, s: State) {
    && Clock(s)
    && NoPhantoms(s.objs)
    && BackupsInv(cfg, s)
    && PruneInv(cfg, s)
    && SnapsInv(cfg, s)
  }

  // ---------- a rebuild ----------

  /** The packs a rebuild has listed are there, and they are all that the blobs it replaces are still needed for. */
  ghost predicate RebuildInv(s: State, r: Rebuild) {
    r.PacksListed? ==>
      && (forall p | p in r.todo + r.read :: PackObj(p) in s.objs)
      && (forall b, p | b in r.existing && Effective(s.objs, b) && p in b.packs :: p in r.todo + r.read)
  }

  ghost predicate RebuildsInv(s: State) {
    && (!s.prune.Idle? ==> s.rebuilds == map[])
    && forall k | k in s.rebuilds :: RebuildInv(s, s.rebuilds[k])
  }

  ghost predicate Inv(cfg: Config, s: State) {
    IndexInv(s) && Safe(cfg, s) && RebuildsInv(s)
  }

  /** A backup's own blob replaces nothing and nothing replaces it. */
  lemma AddPlainBlob(s: State, b0: Blob, objs': map<Obj, Time>)
    requires History(s) && Supersession(s.objs) && IndexObj(b0) !in s.used && b0.supersedes == {}
    requires objs' == s.objs[IndexObj(b0) := s.now]
    ensures forall b :: Effective(objs', b) <==> Effective(s.objs, b) || b == b0
    ensures forall p :: Listed(objs', p) <==> Listed(s.objs, p) || p in b0.packs
  {
    hide Supersession, Effective;
    AddBlob(s, b0, objs');
    forall p ensures Listed(objs', p) <==> Listed(s.objs, p) || p in b0.packs {
      if Listed(s.objs, p) {
        var b :| Effective(s.objs, b) && p in b.packs;
        assert Effective(objs', b);
      }
      if p in b0.packs {
        assert Effective(objs', b0);
      }
    }
  }

  // ---------- what prune cannot condemn ----------

  /** A viable backup keeps everything that was unmarked when it listed the marks. */
  lemma NotCondemned(cfg: Config, s: State, b: Backup, planNow: Time, o: Obj)
    requires Viable(cfg, s, b) && MarksKnown(s, b) && planNow <= s.now
    requires o !in b.marksAtStart
    ensures !Expired(cfg, s, planNow, o)
  {
  }
}
