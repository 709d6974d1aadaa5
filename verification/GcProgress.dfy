/** The garbage collector also collects: two passes of prune a grace apart delete everything that was unneeded and
  old when the first began. Backups, forgets and rebuilds go on meanwhile; only a new snapshot, a use of the object
  itself, a failed DELETE or a prune that dies may stand in the way, and the rule that spares objects for the sake
  of clients that may be at work. */
module GcProgress {
  import opened Objects
  import opened ChunkTable
  import opened GcMachine
  import opened GcFrames
  import opened GcIndexHistory
  import opened GcInvariant
  import opened GcSteps
  import opened GcPruneSteps
  import opened GcRebuildSteps
  import opened GcSafety

  // ---------- the statement ----------

  /** No snapshot, no use of `o`, no DELETE that fails, no prune that dies. */
  predicate Calm(a: Action, o: Obj) {
    && !a.BCommit? && !a.PSkip? && !a.PStop?
    && ((a.BPutTree? || a.BHealTree? || a.BTouch?) ==> TreeObj(a.t) != o)
  }

  /** Prune would not keep `o` if it looked at the repository now. */
  ghost predicate Unneeded(s: State, o: Obj) {
    match o
    case PackObj(p) => p !in NeededPacks(s.marks, ListedPacks(s.objs), ChunksOf(LiveTrees(s.snaps)))
    case TreeObj(t) => t !in LiveTrees(s.snaps)
    case IndexObj(b) => !Effective(s.objs, b)
  }

  /** Nothing speaks against a mark that `o` carries or gets from now on. */
  ghost predicate Ripe(cfg: Config, s: State, o: Obj) {
    && o in s.objs
    && (if o in s.marks then !Evidence(s, o, s.marks[o])
        else s.objs[o] + cfg.pruneGrace <= s.now && (o.TreeObj? && o.tree in s.touches ==> s.touches[o.tree] < s.now))
  }

  /** Prune starts, and runs to its end. */
  ghost predicate Pass(cfg: Config, s: State, run: seq<Action>, o: Obj) {
    && s.prune == Idle && run != [] && run[0] == PLoad && Runs(cfg, s, run) && Promised(cfg, s, run)
    && (forall a | a in run :: Calm(a, o))
    && (forall a | a in run[1..] :: !a.PLoad?)
    && After(cfg, s, run).prune == Idle
  }

  /** Prune rests. */
  ghost predicate Pause(cfg: Config, s: State, run: seq<Action>, o: Obj) {
    && s.prune == Idle && Runs(cfg, s, run) && Promised(cfg, s, run)
    && forall a | a in run :: Calm(a, o) && !OfPrune(a)
  }

  // ---------- what clients leave alone ----------

  /** What a step of a client, not prune, leaves alone. */
  ghost predicate Apart(s: State, s': State, o: Obj) {
    && s.now <= s'.now && s'.prune == s.prune && s'.marks == s.marks && s.used <= s'.used
    && LiveTrees(s'.snaps) <= LiveTrees(s.snaps)
    && (o in s'.objs <==> o in s.objs) && (o in s.objs ==> s'.objs[o] == s.objs[o])
    && (o.TreeObj? ==> (o.tree in s'.touches <==> o.tree in s.touches))
    && (o.TreeObj? && o.tree in s.touches ==> s'.touches[o.tree] == s.touches[o.tree])
  }

  lemma BackupIsApart(cfg: Config, s: State, a: Action, o: Obj)
    requires OfBackup(a) && EnabledBackup(cfg, s, a) && Calm(a, o) && (o.TreeObj? || o in s.used)
    ensures Apart(s, ApplyBackup(cfg, s, a), o)
  {
    hide EnabledBackup, ApplyBackup, BackupEffect, LiveTrees;
    BackupActs(cfg, s, a);
    EffectIsApart(s, ApplyBackup(cfg, s, a), a, o);
  }

  lemma EffectIsApart(s: State, s': State, a: Action, o: Obj)
    requires BackupEffect(s, s', a) && Calm(a, o) && (o.TreeObj? || o in s.used)
    ensures Apart(s, s', o)
  {
    hide LiveTrees, TreeWritten, SealedWritten, Apart;
    if WritesTree(a) {
      TreeIsApart(s, s', a.t, a.BTouch?, o);
    } else if a.BPutPack? {
      SealedIsApart(s, s', PackObj(a.p), o);
    } else if s' == s.(backups := s'.backups) {
      MemoryIsApart(s, s', o);
    } else {
      var b: Blob :| IndexObj(b) !in s.used && b.supersedes == {} && SealedWritten(s, s', IndexObj(b));
      SealedIsApart(s, s', IndexObj(b), o);
    }
  }

  lemma MemoryIsApart(s: State, s': State, o: Obj)
    requires s' == s.(backups := s'.backups)
    ensures Apart(s, s', o)
  {
    hide LiveTrees;
  }

  lemma TreeIsApart(s: State, s': State, t: Tree, touch: bool, o: Obj)
    requires TreeWritten(s, s', t, touch) && o != TreeObj(t)
    ensures Apart(s, s', o)
  {
    hide LiveTrees;
  }

  lemma SealedIsApart(s: State, s': State, x: Obj, o: Obj)
    requires SealedWritten(s, s', x) && o != x
    ensures Apart(s, s', o)
  {
    hide LiveTrees;
  }

  lemma RebuildIsApart(s: State, a: Action, o: Obj)
    requires OfRebuild(a) && EnabledRebuild(s, a) && (o.TreeObj? || o in s.used)
    ensures Apart(s, ApplyRebuild(s, a), o)
  {
    hide LiveTrees, Blobs, PacksOf;
  }

  lemma ClientApart(cfg: Config, s: State, a: Action, o: Obj)
    requires Enabled(cfg, s, a) && !OfPrune(a) && Calm(a, o) && (o.TreeObj? || o in s.used)
    ensures Apart(s, Apply(cfg, s, a), o)
  {
    hide EnabledBackup, EnabledRebuild, ApplyBackup, ApplyRebuild;
    if OfBackup(a) {
      BackupIsApart(cfg, s, a, o);
    } else if OfRebuild(a) {
      RebuildIsApart(s, a, o);
    }
  }

  // ---------- one pass, followed for one object ----------

  /** `o` has neither been written nor touched since `s0`. */
  ghost predicate Unused(s0: State, s: State, o: Obj) {
    && s0.now <= s.now
    && (o.TreeObj? || o in s.used)
    && (o in s.objs ==> o in s0.objs && s.objs[o] == s0.objs[o])
    && (o.TreeObj? && o.tree in s.touches ==> o.tree in s0.touches && s.touches[o.tree] == s0.touches[o.tree])
  }

  /** The mark of `o` is the one of `s0`, or there is none as there was none. */
  ghost predicate SameMark(s0: State, s: State, o: Obj) {
    (o in s.marks <==> o in s0.marks) && (o in s.marks ==> s.marks[o] == s0.marks[o])
  }

  ghost predicate Marked(s0: State, s: State, o: Obj) {
    o in s.marks && (if o in s0.marks then s.marks[o] == s0.marks[o] else s0.now <= s.marks[o])
  }

  /** The plan made in the pass that began in `s0` takes aim at `o`. */
  ghost predicate Aimed(s0: State, plan: Plan, o: Obj, must: bool) {
    && (o !in s0.marks ==> o in plan.toMark)
    && (o in plan.toDelete ==> o in s0.marks && plan.toDelete[o] == s0.marks[o])
    && (must ==> o in plan.toDelete)
    && (o.PackObj? ==> o.pack !in plan.repack)
  }

  /** What a prune that has not decided yet knows: the repository of `s0`. */
  ghost predicate Informed(s0: State, s: State, o: Obj) {
    && LiveTrees(s.snaps) <= LiveTrees(s0.snaps)
    && o in s.objs && s.marks == s0.marks
    && match s.prune
       case Loaded(planNow, bs) => planNow == s0.now && bs == Blobs(s0.objs)
       case Walked(planNow, bs, live, referenced, listed, kinds) =>
         && planNow == s0.now && bs == Blobs(s0.objs)
         && live <= LiveTrees(s0.snaps) && referenced <= ChunksOf(LiveTrees(s0.snaps))
         && (KindOf(o) in kinds ==> o in listed && listed[o] == s.objs[o])
       case _ => true
  }

  /** How far the pass that began in `s0` has come with `o`. With `must` the pass may delete, not only mark. */
  ghost predicate Doomed(s0: State, s: State, o: Obj, must: bool) {
    && Unused(s0, s, o)
    && match s.prune
       case Idle => o in s.objs ==> Marked(s0, s, o) && !must
       case Loaded(_, _) => Informed(s0, s, o)
       case Walked(_, _, _, _, _, _) => Informed(s0, s, o)
       case Running(plan, stage) => Aimed(s0, plan, o, must) && (o in s.objs ==> Placed(s0, s, plan, stage, o))
  }

  ghost predicate Placed(s0: State, s: State, plan: Plan, stage: Stage, o: Obj) {
    match stage
    case Repacking(_) => SameMark(s0, s, o) && o !in plan.toUnmark
    case Deleting(pending, cleared, _, unmark) =>
      SameMark(s0, s, o) && o !in unmark && (o in plan.toDelete ==> o in pending || o in cleared)
    case Unmarking(unmark) => SameMark(s0, s, o) && o !in unmark && o !in plan.toDelete
    case Marking(mark) =>
      o !in plan.toDelete && (Marked(s0, s, o) || (o in mark && o !in s0.marks && o !in s.marks))
    case Sweeping(_) => o !in plan.toDelete && Marked(s0, s, o)
  }

  lemma UnusedSince(s0: State, s: State, o: Obj, s': State)
    requires Unused(s0, s, o) && Apart(s, s', o)
    ensures Unused(s0, s', o)
  {
    hide LiveTrees;
  }

  lemma ClientLeavesDoomed(cfg: Config, s0: State, s: State, a: Action, o: Obj, must: bool)
    requires Doomed(s0, s, o, must) && Enabled(cfg, s, a) && !OfPrune(a) && Calm(a, o)
    ensures Doomed(s0, Apply(cfg, s, a), o, must)
  {
    hide Enabled, Apply, LiveTrees;
    ClientApart(cfg, s, a, o);
    UnusedSince(s0, s, o, Apply(cfg, s, a));
  }

  /** With an old mark or none, and no use since, nothing contradicts what prune may think of `o`. */
  lemma StillRipe(cfg: Config, s0: State, s: State, o: Obj)
    requires Ripe(cfg, s0, o) && Unused(s0, s, o) && o in s.objs && cfg.pruneGrace > 0
    ensures o in s0.marks ==> !Evidence(s, o, s0.marks[o])
    ensures o !in s0.marks ==> forall m: Time | s0.now <= m :: !Evidence(s, o, m)
  {
  }

  // ---------- the decision ----------

  lemma NeededOfFewer(marks: map<Obj, Time>, ps: set<Pack>, cs: set<Chunk>, cs': set<Chunk>)
    requires cs' <= cs
    ensures NeededPacks(marks, ps, cs') <= NeededPacks(marks, ps, cs)
  {
    hide ChosenFor;
  }

  /** Prune's listing has found every pack of the index it loaded. */
  lemma AllHoldable(cfg: Config, s: State)
    requires PruneInv(cfg, s) && s.prune.Walked? && Packs in s.prune.kinds
    ensures Holdable(s.prune) == IndexedIn(s.prune.blobs)
  {
    hide IndexView;
  }

  lemma NotEffectiveIn(objs: map<Obj, Time>, b: Blob)
    ensures EffectiveIn(Blobs(objs), b) <==> Effective(objs, b)
  {
    assert b in Blobs(objs) <==> IndexObj(b) in objs;
    forall b' ensures b' in Blobs(objs) <==> IndexObj(b') in objs {}
  }

  /** What was unneeded when prune loaded the index is not alive when it decides. */
  lemma DecidedAgainst(cfg: Config, s0: State, s: State, o: Obj)
    requires PruneInv(cfg, s) && s.prune.Walked? && Packs in s.prune.kinds
    requires Informed(s0, s, o) && Unneeded(s0, o)
    ensures !Live(s.prune, Needed(s), o)
  {
    hide LiveTrees, Effective, EffectiveIn, IndexedIn, ChosenFor, PruneInv;
    match o
    case PackObj(p) =>
      AllHoldable(cfg, s);
      NeededOfFewer(s.marks, ListedPacks(s0.objs), ChunksOf(LiveTrees(s0.snaps)), s.prune.referenced);
    case TreeObj(t) =>
    case IndexObj(b) => NotEffectiveIn(s0.objs, b);
  }

  lemma DecideAims(cfg: Config, s0: State, s: State, blocked: set<Obj>, repack: set<Pack>, o: Obj, must: bool)
    requires PruneInv(cfg, s) && EnabledPrune(cfg, s, PDecide(blocked, repack))
    requires Doomed(s0, s, o, must) && Unneeded(s0, o) && Ripe(cfg, s0, o)
    requires must ==> o in s0.marks && s0.marks[o] + cfg.pruneGrace <= s0.now && o !in blocked
    ensures Doomed(s0, ApplyPrune(cfg, s, PDecide(blocked, repack)), o, must)
  {
    DecidedAgainst(cfg, s0, s, o);
    assert KindOf(o) in s.prune.kinds;
    hide Needed, LiveTrees, Unneeded, PruneInv, IndexedIn, Blobs, ChunksOf, Evidence;
  }

  // ---------- the steps of prune ----------

  lemma ReadingDooms(cfg: Config, s0: State, s: State, a: Action, o: Obj, must: bool)
    requires Doomed(s0, s, o, must) && OfPrune(a) && EnabledPrune(cfg, s, a) && (a.PWalk? || a.PList?)
    ensures Doomed(s0, ApplyPrune(cfg, s, a), o, must)
  {
    hide IndexedIn, Blobs;
    if a.PWalk? {
      assert forall c | c in ChunksOf(LiveTrees(s.snaps)) :: c in ChunksOf(LiveTrees(s0.snaps));
    }
  }

  lemma RepackingDooms(cfg: Config, s0: State, s: State, a: Action, o: Obj, must: bool)
    requires Doomed(s0, s, o, must) && OfPrune(a) && EnabledPrune(cfg, s, a)
    requires a.PPutPack? || a.PWriteIndex? || a.PKeepIndex?
    ensures Doomed(s0, ApplyPrune(cfg, s, a), o, must)
  {
    hide Holder, NeedsRewrite, NewIndex, Informed;
  }

  lemma CheckPlaces(s0: State, s: State, x: Obj, o: Obj)
    requires s.prune.Running? && s.prune.stage.Deleting? && x in s.prune.plan.toDelete
    requires Placed(s0, s, s.prune.plan, s.prune.stage, o) && o in s.objs
    requires x == o ==> !Evidence(s, o, s.prune.plan.toDelete[o])
    ensures Placed(s0, SetStage(s, Checked(s, x)), s.prune.plan, Checked(s, x), o)
  {
    hide Evidence;
  }

  lemma CheckDooms(cfg: Config, s0: State, s: State, x: Obj, o: Obj, must: bool)
    requires Doomed(s0, s, o, must) && Ripe(cfg, s0, o) && cfg.pruneGrace > 0 && EnabledPrune(cfg, s, PCheck(x))
    ensures Doomed(s0, ApplyPrune(cfg, s, PCheck(x)), o, must)
  {
    hide Informed, Evidence, Ripe, Checked, Placed;
    if o in s.objs {
      StillRipe(cfg, s0, s, o);
      CheckPlaces(s0, s, x, o);
    }
  }

  lemma DeleteDooms(cfg: Config, s0: State, s: State, x: Obj, o: Obj, must: bool)
    requires Doomed(s0, s, o, must) && EnabledPrune(cfg, s, PDelete(x))
    ensures Doomed(s0, ApplyPrune(cfg, s, PDelete(x)), o, must)
  {
    hide Informed;
  }

  lemma TouchDooms(cfg: Config, s0: State, s: State, t: Tree, o: Obj, must: bool)
    requires Doomed(s0, s, o, must) && EnabledPrune(cfg, s, PDeleteTouch(t))
    ensures Doomed(s0, ApplyPrune(cfg, s, PDeleteTouch(t)), o, must)
  {
    hide Informed;
  }

  lemma MarkingDooms(cfg: Config, s0: State, s: State, a: Action, o: Obj, must: bool)
    requires Doomed(s0, s, o, must) && OfPrune(a) && EnabledPrune(cfg, s, a) && (a.PUnmark? || a.PMark?)
    ensures Doomed(s0, ApplyPrune(cfg, s, a), o, must)
  {
    hide Informed;
  }

  lemma SweepingDooms(cfg: Config, s0: State, s: State, a: Action, o: Obj, must: bool)
    requires Doomed(s0, s, o, must) && OfPrune(a) && EnabledPrune(cfg, s, a) && (a.PFindOrphan? || a.PSweep?)
    ensures Doomed(s0, ApplyPrune(cfg, s, a), o, must)
  {
    hide Informed;
  }

  lemma NextDooms(cfg: Config, s0: State, s: State, o: Obj, must: bool)
    requires Doomed(s0, s, o, must) && EnabledPrune(cfg, s, PNext)
    ensures Doomed(s0, ApplyPrune(cfg, s, PNext), o, must)
  {
    hide Informed;
  }

  lemma PruneDooms(cfg: Config, s0: State, s: State, a: Action, o: Obj, must: bool)
    requires PruneInv(cfg, s) && Doomed(s0, s, o, must) && Unneeded(s0, o) && Ripe(cfg, s0, o) && cfg.pruneGrace > 0
    requires OfPrune(a) && EnabledPrune(cfg, s, a) && Calm(a, o) && !a.PLoad?
    requires must ==> o in s0.marks && s0.marks[o] + cfg.pruneGrace <= s0.now && (a.PDecide? ==> o !in a.blocked)
    ensures Doomed(s0, ApplyPrune(cfg, s, a), o, must)
  {
    hide PruneInv, Doomed, Unneeded, Ripe, EnabledPrune, ApplyPrune;
    match a
    case PDecide(blocked, repack) => DecideAims(cfg, s0, s, blocked, repack, o, must);
    case PCheck(x) => CheckDooms(cfg, s0, s, x, o, must);
    case PDelete(x) => DeleteDooms(cfg, s0, s, x, o, must);
    case PDeleteTouch(t) => TouchDooms(cfg, s0, s, t, o, must);
    case PNext => NextDooms(cfg, s0, s, o, must);
    case _ =>
      if a.PWalk? || a.PList? {
        ReadingDooms(cfg, s0, s, a, o, must);
      } else if a.PPutPack? || a.PWriteIndex? || a.PKeepIndex? {
        RepackingDooms(cfg, s0, s, a, o, must);
      } else if a.PUnmark? || a.PMark? {
        MarkingDooms(cfg, s0, s, a, o, must);
      } else {
        SweepingDooms(cfg, s0, s, a, o, must);
      }
  }

  lemma InvParts(cfg: Config, s: State)
    requires Inv(cfg, s)
    ensures IndexInv(s) && History(s) && Supersession(s.objs) && Names(s)
    ensures Safe(cfg, s) && PruneInv(cfg, s) && NoPhantoms(s.objs) && RebuildsInv(s)
  {
  }

  /** One step of anybody, as far as `o` is concerned. */
  lemma StepDooms(cfg: Config, s0: State, s: State, a: Action, o: Obj, must: bool)
    requires Inv(cfg, s) && Doomed(s0, s, o, must) && Unneeded(s0, o) && Ripe(cfg, s0, o) && cfg.pruneGrace > 0
    requires Enabled(cfg, s, a) && Calm(a, o) && !a.PLoad?
    requires must ==> o in s0.marks && s0.marks[o] + cfg.pruneGrace <= s0.now && (a.PDecide? ==> o !in a.blocked)
    ensures Doomed(s0, Apply(cfg, s, a), o, must)
  {
    hide Inv, PruneInv, Doomed, Unneeded, Ripe, EnabledPrune, ApplyPrune, EnabledBackup, ApplyBackup, EnabledRebuild,
         ApplyRebuild, Safe, IndexInv, RebuildsInv, History, Supersession, Names, NoPhantoms;
    if OfPrune(a) {
      InvParts(cfg, s);
      PruneDooms(cfg, s0, s, a, o, must);
    } else {
      ClientLeavesDoomed(cfg, s0, s, a, o, must);
    }
  }

  lemma {:induction false} RunDooms(cfg: Config, s0: State, s: State, run: seq<Action>, o: Obj, must: bool)
    requires cfg.Valid() && Inv(cfg, s) && Runs(cfg, s, run) && Promised(cfg, s, run) && cfg.pruneGrace > 0
    requires Doomed(s0, s, o, must) && Unneeded(s0, o) && Ripe(cfg, s0, o)
    requires forall a | a in run :: Calm(a, o) && !a.PLoad?
    requires must ==> o in s0.marks && s0.marks[o] + cfg.pruneGrace <= s0.now
    requires must ==> forall a | a in run :: a.PDecide? ==> o !in a.blocked
    ensures Doomed(s0, After(cfg, s, run), o, must)
    decreases |run|
  {
    hide Inv, Doomed, Unneeded, Ripe, Enabled, Apply, Environment;
    if run != [] {
      assert run[0] in run;
      StepDooms(cfg, s0, s, run[0], o, must);
      StepInv(cfg, s, run[0]);
      RunDooms(cfg, s0, Apply(cfg, s, run[0]), run[1..], o, must);
    }
  }

  /** A pass that began with `o` unneeded has marked it at its end, or deleted it; a pass that may, has deleted it. */
  lemma PassDooms(cfg: Config, s: State, run: seq<Action>, o: Obj, must: bool)
    requires cfg.Valid() && Inv(cfg, s) && cfg.pruneGrace > 0 && Pass(cfg, s, run, o)
    requires Unneeded(s, o) && Ripe(cfg, s, o)
    requires must ==> o in s.marks && s.marks[o] + cfg.pruneGrace <= s.now
    requires must ==> forall a | a in run :: a.PDecide? ==> o !in a.blocked
    ensures Doomed(s, After(cfg, s, run), o, must) && Inv(cfg, After(cfg, s, run))
  {
    hide Inv, Unneeded, Environment, Evidence;
    var s1 := s.(prune := Loaded(s.now, Blobs(s.objs)));
    assert Apply(cfg, s, run[0]) == s1;
    assert run[0] in run && forall a | a in run[1..] :: a in run;
    StepInv(cfg, s, run[0]);
    StartDooms(cfg, s, s1, o, must);
    hide Apply, Enabled, Doomed;
    RunDooms(cfg, s, s1, run[1..], o, must);
    RunInv(cfg, s1, run[1..]);
  }

  lemma StartDooms(cfg: Config, s: State, s1: State, o: Obj, must: bool)
    requires Inv(cfg, s) && Ripe(cfg, s, o) && s1 == s.(prune := Loaded(s.now, Blobs(s.objs)))
    ensures Doomed(s, s1, o, must)
  {
    hide Safe, RebuildsInv, Names, Supersession, Listings, PruneListing, Evidence, Blobs;
  }

  // ---------- every chunk in use keeps an unmarked pack ----------

  /** `u` is listed, and is not on its way out. */
  ghost predicate Serves(s: State, u: Pack) {
    && Listed(s.objs, u)
    && match s.prune
       case Idle => PackObj(u) !in s.marks
       case Running(plan, stage) => Stays(s, plan, stage, PackObj(u))
       case _ => false
  }

  ghost predicate Stays(s: State, plan: Plan, stage: Stage, o: Obj) {
    match stage
    case Repacking(_) => false
    case Deleting(_, _, _, unmark) => o !in plan.toMark && (o in s.marks ==> o in unmark)
    case Unmarking(unmark) => o !in plan.toMark && (o in s.marks ==> o in unmark)
    case Marking(mark) => o !in mark && o !in s.marks
    case Sweeping(_) => o !in s.marks
  }

  ghost predicate Served(s: State) {
    forall c | c in ChunksOf(LiveTrees(s.snaps)) :: exists u: Pack :: c in u.chunks && Serves(s, u)
  }

  /** What the plan says of the packs that chunks were found in, before the index is written. */
  ghost predicate PlanServes(s: State, plan: Plan, newPacks: set<Pack>) {
    && (forall u | u in plan.needed ::
          && u in IndexedIn(plan.blobs) && PackObj(u) !in plan.toDelete
          && (PackObj(u) in s.marks ==> PackObj(u) in plan.toUnmark)
          && (PackObj(u) in plan.toMark ==> u in plan.repack))
    && (forall u | u in newPacks :: PackObj(u) !in plan.toMark)
  }

  ghost predicate Serving(s: State) {
    match s.prune
    case Idle => Served(s)
    case Loaded(_, _) => true
    case Walked(_, _, _, referenced, _, _) => ChunksOf(LiveTrees(s.snaps)) <= referenced
    case Running(plan, stage) =>
      if stage.Repacking? then ChunksOf(LiveTrees(s.snaps)) <= plan.referenced && PlanServes(s, plan, stage.newPacks)
      else Served(s)
  }

  lemma ChunksOfFewer(ts: set<Tree>, ts': set<Tree>)
    requires ts' <= ts
    ensures ChunksOf(ts') <= ChunksOf(ts)
  {
  }

  /** Clients take nothing from the index. */
  lemma ClientKeepsListed(cfg: Config, s: State, a: Action)
    requires Inv(cfg, s) && Enabled(cfg, s, a) && !OfPrune(a)
    ensures forall p | Listed(s.objs, p) :: Listed(Apply(cfg, s, a).objs, p)
  {
    hide Effective, Safe, Names, Listings, PruneListing, Supersession, ReplacedTogether;
    var s' := Apply(cfg, s, a);
    if a.BFinish? {
      if s.backups[a.k].own != {} {
        AddPlainBlob(s, Blob(a.nonce, s.backups[a.k].own, {}), s'.objs);
      }
    } else if a.RWrite? {
      RebuildListsAll(cfg, s, a.k, a.nonce);
    } else {
      NoBlobKeepsListed(cfg, s, a);
    }
  }

  lemma NoBlobKeepsListed(cfg: Config, s: State, a: Action)
    requires History(s) && Enabled(cfg, s, a) && !OfPrune(a) && !a.BFinish? && !a.RWrite?
    ensures forall p | Listed(s.objs, p) :: Listed(Apply(cfg, s, a).objs, p)
  {
    hide Enabled, Apply, Listed;
    ClientFrame(cfg, s, a);
    SameBlobs(s.objs, Apply(cfg, s, a).objs);
  }

  lemma RebuildListsAll(cfg: Config, s: State, k: nat, nonce: nat)
    requires Inv(cfg, s) && EnabledRebuild(s, RWrite(k, nonce))
    ensures forall p | Listed(s.objs, p) :: Listed(ApplyRebuild(s, RWrite(k, nonce)).objs, p)
  {
    hide Effective, Safe, Names, PruneListing, Supersession, ReplacedTogether, Listed;
    var s' := ApplyRebuild(s, RWrite(k, nonce));
    var r := s.rebuilds[k];
    assert Listing(s, r.existing);
    AddBlob(s, Rebuilt(r, nonce), s'.objs);
    forall p | Listed(s.objs, p) ensures Listed(s'.objs, p) {
      RebuiltListsAll(s, r, Rebuilt(r, nonce), s'.objs, p);
    }
  }

  lemma ClientKeepsServing(cfg: Config, s: State, a: Action, o: Obj)
    requires Inv(cfg, s) && Serving(s) && Enabled(cfg, s, a) && !OfPrune(a) && Calm(a, o)
    requires o.TreeObj? || o in s.used
    ensures Serving(Apply(cfg, s, a))
  {
    hide Inv, Enabled, Apply, Listed, LiveTrees, ChunksOf, IndexedIn;
    var s' := Apply(cfg, s, a);
    ClientApart(cfg, s, a, o);
    ClientKeepsListed(cfg, s, a);
    ChunksOfFewer(LiveTrees(s.snaps), LiveTrees(s'.snaps));
    forall u | Serves(s, u) ensures Serves(s', u) {
    }
  }

  lemma ReadingServes(cfg: Config, s: State, a: Action)
    requires Serving(s) && OfPrune(a) && EnabledPrune(cfg, s, a) && (a.PLoad? || a.PWalk? || a.PList?)
    ensures Serving(ApplyPrune(cfg, s, a))
  {
    hide Served, IndexedIn, Blobs, Holder;
  }

  lemma DecideServes(cfg: Config, s: State, blocked: set<Obj>, repack: set<Pack>)
    requires Serving(s) && EnabledPrune(cfg, s, PDecide(blocked, repack))
    ensures Serving(ApplyPrune(cfg, s, PDecide(blocked, repack)))
  {
    hide LiveTrees, ChunksOf, ChosenFor, IndexedIn, Holder;
    var s' := ApplyPrune(cfg, s, PDecide(blocked, repack));
    assert forall u | u in Needed(s) :: u in Holdable(s.prune);
  }

  lemma PutPackServes(cfg: Config, s: State, p: Pack)
    requires Serving(s) && PruneListing(s) && EnabledPrune(cfg, s, PPutPack(p))
    ensures Serving(ApplyPrune(cfg, s, PPutPack(p)))
  {
    hide LiveTrees, ChunksOf, IndexedIn, Listing, Condemnable;
    assert PackObj(p) !in s.prune.plan.toMark;
  }

  /** The pack that repacking leaves for a chunk is neither deleted nor marked in this pass. */
  lemma RepackLeaves(cfg: Config, s: State, failed: set<Pack>, c: Chunk) returns (u: Pack)
    requires s.prune.Running? && s.prune.stage.Repacking? && c in s.prune.plan.referenced
    requires PlanServes(s, s.prune.plan, s.prune.stage.newPacks)
    requires Repacked(s.prune.plan, s.prune.stage.newPacks, failed)
    requires forall q | q in s.prune.stage.newPacks :: PackObj(q) !in s.marks
    ensures c in u.chunks && (u in s.prune.plan.needed || u in s.prune.stage.newPacks)
    ensures PackObj(u) !in WithoutFailed(s.prune.plan, failed).toMark
    ensures PackObj(u) in s.marks ==> PackObj(u) in s.prune.plan.toUnmark
  {
    var plan := s.prune.plan;
    u :| u in plan.needed - (plan.repack - failed) + s.prune.stage.newPacks && c in u.chunks;
  }

  lemma WriteIndexServes(cfg: Config, s: State, nonce: nat, failed: set<Pack>)
    requires IndexInv(s) && PruneInv(cfg, s) && Serving(s) && EnabledPrune(cfg, s, PWriteIndex(nonce, failed))
    ensures Serving(ApplyPrune(cfg, s, PWriteIndex(nonce, failed)))
  {
    hide LiveTrees, ChunksOf, IndexedIn, Names, Supersession, Listings, ReplacedTogether, Effective, IndexView,
         Repacked, NeedsRewrite, PlanMarks, EffectiveOf;
    var s' := ApplyPrune(cfg, s, PWriteIndex(nonce, failed));
    var plan, newPacks := s.prune.plan, s.prune.stage.newPacks;
    var n := NewIndex(plan, newPacks, nonce);
    AddBlob(s, n, s'.objs);
    forall c | c in ChunksOf(LiveTrees(s'.snaps)) ensures exists u: Pack :: c in u.chunks && Serves(s', u) {
      var u := RepackLeaves(cfg, s, failed, c);
      assert u in n.packs && Effective(s'.objs, n);
      assert Serves(s', u);
    }
  }

  lemma KeepIndexServes(cfg: Config, s: State, failed: set<Pack>)
    requires PruneInv(cfg, s) && Serving(s) && EnabledPrune(cfg, s, PKeepIndex(failed))
    ensures Serving(ApplyPrune(cfg, s, PKeepIndex(failed)))
  {
    hide LiveTrees, ChunksOf, IndexedIn, IndexView, Repacked, PlanMarks, EffectiveOf, Listed;
    var s' := ApplyPrune(cfg, s, PKeepIndex(failed));
    var plan := s.prune.plan;
    forall c | c in ChunksOf(LiveTrees(s'.snaps)) ensures exists u: Pack :: c in u.chunks && Serves(s', u) {
      var u := RepackLeaves(cfg, s, failed, c);
      IndexedIsListed(cfg, s, plan.planNow, plan.blobs, u);
      assert Serves(s', u);
    }
  }

  /** Who served, serves. */
  lemma ServedStill(s: State, s': State)
    requires Served(s) && s'.snaps == s.snaps && forall u | Serves(s, u) :: Serves(s', u)
    ensures Served(s')
  {
    hide LiveTrees, ChunksOf, Serves;
  }

  lemma DeletingServes(cfg: Config, s: State, a: Action)
    requires IndexInv(s) && Serving(s) && OfPrune(a) && EnabledPrune(cfg, s, a)
    requires a.PCheck? || a.PDelete? || a.PDeleteTouch?
    ensures Serving(ApplyPrune(cfg, s, a))
  {
    hide LiveTrees, ChunksOf, Listed, Effective, Evidence, Served, History, Names, Supersession, Listings;
    var s' := ApplyPrune(cfg, s, a);
    assert forall p | Listed(s.objs, p) :: Listed(s'.objs, p) by {
      if a.PDelete? { DropOther(s.objs, a.o); }
    }
    ServedStill(s, s');
  }

  lemma MarkingServes(cfg: Config, s: State, a: Action)
    requires Serving(s) && OfPrune(a) && EnabledPrune(cfg, s, a)
    requires a.PUnmark? || a.PMark? || a.PFindOrphan? || a.PSweep?
    ensures Serving(ApplyPrune(cfg, s, a))
  {
    hide LiveTrees, ChunksOf, Listed, Served;
    ServedStill(s, ApplyPrune(cfg, s, a));
  }

  lemma NextServes(cfg: Config, s: State)
    requires Serving(s) && EnabledPrune(cfg, s, PNext)
    ensures Serving(ApplyPrune(cfg, s, PNext))
  {
    hide LiveTrees, ChunksOf, Listed, Served;
    ServedStill(s, ApplyPrune(cfg, s, PNext));
  }

  lemma PruneKeepsServing(cfg: Config, s: State, a: Action)
    requires Inv(cfg, s) && Serving(s) && OfPrune(a) && EnabledPrune(cfg, s, a) && !a.PSkip? && !a.PStop?
    ensures Serving(ApplyPrune(cfg, s, a))
  {
    hide History, Names, Supersession, Listings, PruneListing, PruneInv, Serving, EnabledPrune, ApplyPrune, Safe, RebuildsInv;
    InvParts(cfg, s);
    match a
    case PDecide(blocked, repack) => DecideServes(cfg, s, blocked, repack);
    case PPutPack(p) => PutPackServes(cfg, s, p);
    case PWriteIndex(nonce, failed) => WriteIndexServes(cfg, s, nonce, failed);
    case PKeepIndex(failed) => KeepIndexServes(cfg, s, failed);
    case PNext => NextServes(cfg, s);
    case _ =>
      if a.PLoad? || a.PWalk? || a.PList? {
        ReadingServes(cfg, s, a);
      } else if a.PCheck? || a.PDelete? || a.PDeleteTouch? {
        DeletingServes(cfg, s, a);
      } else {
        MarkingServes(cfg, s, a);
      }
  }

  lemma {:induction false} RunServes(cfg: Config, s: State, run: seq<Action>, o: Obj)
    requires cfg.Valid() && Inv(cfg, s) && Runs(cfg, s, run) && Promised(cfg, s, run) && Serving(s)
    requires (o.TreeObj? || o in s.used) && forall a | a in run :: Calm(a, o)
    ensures Serving(After(cfg, s, run)) && (o.TreeObj? || o in After(cfg, s, run).used)
    decreases |run|
  {
    hide Inv, Serving, EnabledPrune, ApplyPrune, EnabledBackup, ApplyBackup, EnabledRebuild, ApplyRebuild, Environment, IndexInv;
    if run != [] {
      var s1 := Apply(cfg, s, run[0]);
      assert run[0] in run;
      InvParts(cfg, s);
      if OfPrune(run[0]) {
        PruneKeepsServing(cfg, s, run[0]);
      } else {
        ClientKeepsServing(cfg, s, run[0], o);
      }
      StepKeepsIndex(cfg, s, run[0]);
      StepInv(cfg, s, run[0]);
      RunServes(cfg, s1, run[1..], o);
    }
  }

  // ---------- between the passes ----------

  /** Prune rests: `o`, marked and unused, stays so. */
  ghost predicate Waiting(s1: State, s: State, o: Obj) {
    && s.prune.Idle? && Unused(s1, s, o) && s.marks == s1.marks && LiveTrees(s.snaps) <= LiveTrees(s1.snaps)
    && (o in s.objs <==> o in s1.objs)
  }

  lemma {:induction false} PauseWaits(cfg: Config, s1: State, s: State, run: seq<Action>, o: Obj)
    requires Runs(cfg, s, run) && Waiting(s1, s, o)
    requires forall a | a in run :: Calm(a, o) && !OfPrune(a)
    ensures Waiting(s1, After(cfg, s, run), o)
    decreases |run|
  {
    hide Enabled, Apply, LiveTrees;
    if run != [] {
      assert run[0] in run;
      ClientApart(cfg, s, run[0], o);
      UnusedSince(s1, s, o, Apply(cfg, s, run[0]));
      PauseWaits(cfg, s1, Apply(cfg, s, run[0]), run[1..], o);
    }
  }

  /** A marked pack is not chosen for a chunk that an unmarked one serves. */
  lemma MarkedIsNotChosen(s: State, c: Chunk, p: Pack, u: Pack)
    requires History(s) && Names(s) && PackObj(p) in s.marks
    requires u in ListedPacks(s.objs) && c in u.chunks && PackObj(u) !in s.marks && PackObj(u) in s.used
    ensures !ChosenFor(s.marks, ListedPacks(s.objs), c, p)
  {
    hide ListedPacks;
    assert u.name in HolderNames(ListedPacks(s.objs), c);
    assert PackObj(p) in s.marks && p.name in MarkedNames(s.marks);
    assert u.name !in MarkedNames(s.marks);
    assert !RankLeq(MarkedNames(s.marks), p.name, u.name);
  }

  /** Where every chunk in use has an unmarked pack, a marked pack is unneeded. */
  lemma MarkedIsUnneeded(s: State, p: Pack)
    requires IndexInv(s) && NoPhantoms(s.objs) && s.prune.Idle? && Served(s) && PackObj(p) in s.marks
    ensures Unneeded(s, PackObj(p))
  {
    hide ChosenFor, ListedPacks, Listings, PruneListing, Supersession, Names, LiveTrees, ChunksOf, Listed;
    ListedPacksAreListed(s.objs);
    forall c | c in ChunksOf(LiveTrees(s.snaps)) ensures !ChosenFor(s.marks, ListedPacks(s.objs), c, p) {
      var u: Pack :| c in u.chunks && Serves(s, u);
      MarkedIsNotChosen(s, c, p, u);
    }
  }

  /** What was unneeded at the first pass is unneeded at the second. */
  lemma StillUnneeded(cfg: Config, s: State, s2: State, o: Obj)
    requires Inv(cfg, s2) && s2.prune.Idle? && Served(s2) && Unneeded(s, o)
    requires LiveTrees(s2.snaps) <= LiveTrees(s.snaps) && o in s2.marks
    requires o.IndexObj? && Effective(s2.objs, o.blob) ==> Effective(s.objs, o.blob)
    ensures Unneeded(s2, o)
  {
    hide Served, LiveTrees, ChunksOf, ListedPacks, NeededPacks, Effective, IndexInv, PruneInv, RebuildsInv;
    if o.PackObj? {
      MarkedIsUnneeded(s2, o.pack);
    }
  }

  // ---------- what is gone stays gone ----------

  lemma PruneKeepsAbsent(cfg: Config, s: State, a: Action, o: Obj)
    requires o !in s.objs && (o.TreeObj? || o in s.used) && OfPrune(a) && EnabledPrune(cfg, s, a)
    ensures o !in ApplyPrune(cfg, s, a).objs && s.used <= ApplyPrune(cfg, s, a).used
  {
    hide EnabledPrune, ApplyPrune, PruneEffect;
    PruneActs(cfg, s, a);
    PruneLeaves(s, ApplyPrune(cfg, s, a), a);
  }

  lemma {:induction false} RunKeepsAbsent(cfg: Config, s: State, run: seq<Action>, o: Obj)
    requires o !in s.objs && (o.TreeObj? || o in s.used) && Runs(cfg, s, run) && forall a | a in run :: Calm(a, o)
    ensures o !in After(cfg, s, run).objs
    decreases |run|
  {
    hide EnabledPrune, ApplyPrune, EnabledBackup, ApplyBackup, EnabledRebuild, ApplyRebuild;
    if run != [] {
      assert run[0] in run;
      if OfPrune(run[0]) {
        PruneKeepsAbsent(cfg, s, run[0], o);
      } else {
        ClientApart(cfg, s, run[0], o);
      }
      RunKeepsAbsent(cfg, Apply(cfg, s, run[0]), run[1..], o);
    }
  }

  // ---------- two passes ----------

  /** Two passes, the second begun at least a grace after the first was over, and not sparing `o` for a client. */
  ghost predicate TwoPasses(cfg: Config, s: State, first: seq<Action>, pause: seq<Action>, second: seq<Action>, o: Obj) {
    && Pass(cfg, s, first, o)
    && var s1 := After(cfg, s, first);
       Pause(cfg, s1, pause, o)
       && var s2 := After(cfg, s1, pause);
          && Pass(cfg, s2, second, o)
          && s1.now + cfg.pruneGrace <= s2.now
          && forall a | a in second && a.PDecide? :: o !in a.blocked
  }

  ghost function AfterBoth(cfg: Config, s: State, first: seq<Action>, pause: seq<Action>, second: seq<Action>, o: Obj): State
    requires TwoPasses(cfg, s, first, pause, second, o)
  {
    After(cfg, After(cfg, After(cfg, s, first), pause), second)
  }

  /** After the first pass every chunk in use has an unmarked pack, and keeps it while prune rests. */
  lemma FirstPassServes(cfg: Config, s: State, first: seq<Action>, pause: seq<Action>, o: Obj)
    requires cfg.Valid() && Inv(cfg, s) && Pass(cfg, s, first, o) && (o.TreeObj? || o in s.used)
    requires Pause(cfg, After(cfg, s, first), pause, o)
    ensures Served(After(cfg, After(cfg, s, first), pause)) && Inv(cfg, After(cfg, After(cfg, s, first), pause))
    ensures After(cfg, After(cfg, s, first), pause).prune.Idle?
    ensures (o.TreeObj? || o in After(cfg, s, first).used)
  {
    hide Inv, Environment, Served;
    var s0 := Apply(cfg, s, first[0]);
    assert first[0] in first && forall a | a in first[1..] :: a in first;
    assert s0 == s.(prune := Loaded(s.now, Blobs(s.objs)));
    StepInv(cfg, s, first[0]);
    hide Apply, Enabled;
    RunServes(cfg, s0, first[1..], o);
    RunInv(cfg, s0, first[1..]);
    var s1 := After(cfg, s, first);
    RunServes(cfg, s1, pause, o);
    RunInv(cfg, s1, pause);
    StaysIdle(cfg, s1, pause, o);
  }

  lemma {:induction false} StaysIdle(cfg: Config, s: State, run: seq<Action>, o: Obj)
    requires Runs(cfg, s, run) && s.prune.Idle? && forall a | a in run :: Calm(a, o) && !OfPrune(a)
    ensures After(cfg, s, run).prune.Idle?
    decreases |run|
  {
    hide EnabledPrune, ApplyPrune, LiveTrees;
    if run != [] {
      assert run[0] in run;
      IdleStep(cfg, s, run[0]);
      StaysIdle(cfg, Apply(cfg, s, run[0]), run[1..], o);
    }
  }

  lemma IdleStep(cfg: Config, s: State, a: Action)
    requires Enabled(cfg, s, a) && !OfPrune(a)
    ensures Apply(cfg, s, a).prune == s.prune
  {
    hide EnabledBackup, ApplyBackup, BackupEffect, Blobs, PacksOf;
    if OfBackup(a) {
      BackupActs(cfg, s, a);
      BackupLeaves(s, ApplyBackup(cfg, s, a), a);
    }
  }

  /** What the second pass finds when `o` is still there. */
  lemma BeforeSecond(cfg: Config, s: State, s1: State, s2: State, o: Obj)
    requires cfg.pruneGrace > 0 && Ripe(cfg, s, o) && Clock(s1)
    requires Unused(s, s1, o) && (o in s1.objs ==> Marked(s, s1, o)) && Waiting(s1, s2, o)
    requires s1.now + cfg.pruneGrace <= s2.now && o in s1.objs
    ensures Unused(s, s2, o) && o in s2.objs && o in s2.marks
    ensures Ripe(cfg, s2, o) && s2.marks[o] + cfg.pruneGrace <= s2.now
  {
    hide LiveTrees, Evidence;
    assert Unused(s, s2, o);
    StillRipe(cfg, s, s2, o);
  }

  /** With no snapshot between, two passes of prune a grace apart delete every pack, tree and index blob that was
      unneeded and old when the first began, or marked already, unless the object was used after its mark. */
  lemma TwoPassesDelete(cfg: Config, s: State, first: seq<Action>, pause: seq<Action>, second: seq<Action>, o: Obj)
    requires cfg.Valid() && cfg.pruneGrace > 0 && Inv(cfg, s)
    requires Unneeded(s, o) && Ripe(cfg, s, o) && TwoPasses(cfg, s, first, pause, second, o)
    ensures o !in AfterBoth(cfg, s, first, pause, second, o).objs
  {
    hide Inv, Runs, Promised, Ripe, Unneeded, Served, LiveTrees, Effective;
    var s1 := After(cfg, s, first);
    var s2 := After(cfg, s1, pause);
    PassDooms(cfg, s, first, o, false);
    StoredIsUsed(cfg, s, o);
    FirstPassServes(cfg, s, first, pause, o);
    PauseFrom(cfg, s1, pause, o);
    if o in s1.objs {
      InvParts(cfg, s1);
      BeforeSecond(cfg, s, s1, s2, o);
      SecondIsUnneeded(cfg, s, first, pause, o);
      PassDooms(cfg, s2, second, o, true);
    } else {
      RunKeepsAbsent(cfg, s2, second, o);
    }
  }

  lemma StoredIsUsed(cfg: Config, s: State, o: Obj)
    requires Inv(cfg, s) && Ripe(cfg, s, o)
    ensures o.TreeObj? || o in s.used
  {
  }

  lemma PauseFrom(cfg: Config, s1: State, pause: seq<Action>, o: Obj)
    requires Pause(cfg, s1, pause, o) && (o.TreeObj? || o in s1.used)
    ensures Waiting(s1, After(cfg, s1, pause), o)
  {
    hide Runs, Promised, LiveTrees;
    PauseWaits(cfg, s1, s1, pause, o);
  }

  lemma {:induction false} LiveShrinks(cfg: Config, s: State, run: seq<Action>, o: Obj)
    requires Runs(cfg, s, run) && forall a | a in run :: Calm(a, o)
    ensures LiveTrees(After(cfg, s, run).snaps) <= LiveTrees(s.snaps)
    decreases |run|
  {
    hide Enabled, Apply, LiveTrees;
    if run != [] {
      assert run[0] in run;
      StepShrinks(cfg, s, run[0], o);
      LiveShrinks(cfg, Apply(cfg, s, run[0]), run[1..], o);
    }
  }

  lemma StepShrinks(cfg: Config, s: State, a: Action, o: Obj)
    requires Enabled(cfg, s, a) && Calm(a, o)
    ensures LiveTrees(Apply(cfg, s, a).snaps) <= LiveTrees(s.snaps)
  {
    hide EnabledBackup, EnabledPrune, ApplyBackup, ApplyPrune, BackupEffect, PruneEffect, Reach, Blobs, PacksOf;
    if OfBackup(a) {
      BackupActs(cfg, s, a);
      BackupLeaves(s, ApplyBackup(cfg, s, a), a);
    } else if OfPrune(a) {
      PruneActs(cfg, s, a);
      PruneLeaves(s, ApplyPrune(cfg, s, a), a);
    }
  }

  lemma SecondIsUnneeded(cfg: Config, s: State, first: seq<Action>, pause: seq<Action>, o: Obj)
    requires cfg.Valid() && Inv(cfg, s) && Unneeded(s, o) && (o.TreeObj? || o in s.used)
    requires Pass(cfg, s, first, o) && Pause(cfg, After(cfg, s, first), pause, o)
    requires var s2 := After(cfg, After(cfg, s, first), pause);
             o in s2.marks && Inv(cfg, s2) && s2.prune.Idle? && Served(s2)
    ensures Unneeded(After(cfg, After(cfg, s, first), pause), o)
  {
    hide Unneeded, Served, LiveTrees, Effective, Safe, RebuildsInv, History, Names, Supersession, Listings, PruneListing,
         Runs, Promised;
    var s1 := After(cfg, s, first);
    LiveShrinks(cfg, s, first, o);
    LiveShrinks(cfg, s1, pause, o);
    IndexRun(cfg, s, first);
    IndexRun(cfg, s1, pause);
    StillUnneeded(cfg, s, After(cfg, s1, pause), o);
  }

  // ---------- what a later use saves ----------

  ghost predicate Contradicted(s: State, o: Obj) {
    o in s.marks ==> Evidence(s, o, s.marks[o])
  }

  /** `o` is there, and the prune that is running will not delete it. With `first` it will not mark it either. */
  ghost predicate Spared(s: State, o: Obj, first: bool) {
    && o in s.objs
    && (first ==> Contradicted(s, o))
    && match s.prune
       case Idle => true
       case Running(plan, stage) =>
         && (o in plan.toDelete ==> Evidence(s, o, plan.toDelete[o]))
         && (first ==> o !in plan.toMark)
         && SparedIn(stage, o, first)
       case _ => Contradicted(s, o) && (first ==> o in s.marks)
  }

  ghost predicate SparedIn(stage: Stage, o: Obj, first: bool) {
    match stage
    case Deleting(_, cleared, touchDel, _) => o !in cleared && (o.TreeObj? ==> o.tree !in touchDel)
    case Marking(mark) => first ==> o !in mark
    case Sweeping(orphans) => o.TreeObj? ==> o.tree !in orphans
    case _ => true
  }

  lemma ClientSpares(cfg: Config, s: State, a: Action, o: Obj, first: bool)
    requires Spared(s, o, first) && Enabled(cfg, s, a) && !OfPrune(a) && Calm(a, o) && (o.TreeObj? || o in s.used)
    ensures Spared(Apply(cfg, s, a), o, first)
  {
    hide Enabled, Apply, LiveTrees;
    ClientApart(cfg, s, a, o);
  }

  lemma PlanningSpares(cfg: Config, s: State, a: Action, o: Obj, first: bool)
    requires Spared(s, o, first) && OfPrune(a) && EnabledPrune(cfg, s, a) && (a.PWalk? || a.PList? || a.PDecide?)
    ensures Spared(ApplyPrune(cfg, s, a), o, first)
  {
    hide Needed, LiveTrees, Blobs, IndexedIn, ChunksOf;
  }

  lemma RepackingSpares(cfg: Config, s: State, a: Action, o: Obj, first: bool)
    requires Spared(s, o, first) && OfPrune(a) && EnabledPrune(cfg, s, a)
    requires a.PPutPack? || a.PWriteIndex? || a.PKeepIndex?
    requires o.TreeObj? || o in s.used
    ensures Spared(ApplyPrune(cfg, s, a), o, first)
  {
    hide Repacked, NeedsRewrite, NewIndex;
  }

  lemma CheckSpares(cfg: Config, s: State, x: Obj, o: Obj, first: bool)
    requires Spared(s, o, first) && EnabledPrune(cfg, s, PCheck(x))
    ensures Spared(ApplyPrune(cfg, s, PCheck(x)), o, first)
  {
  }

  lemma DeleteSpares(cfg: Config, s: State, a: Action, o: Obj, first: bool)
    requires Spared(s, o, first) && OfPrune(a) && EnabledPrune(cfg, s, a)
    requires a.PDelete? || a.PDeleteTouch? || a.PNext?
    ensures Spared(ApplyPrune(cfg, s, a), o, first)
  {
  }

  lemma MarkingSpares(cfg: Config, s: State, a: Action, o: Obj, first: bool)
    requires Spared(s, o, first) && OfPrune(a) && EnabledPrune(cfg, s, a)
    requires a.PUnmark? || a.PMark? || a.PFindOrphan? || a.PSweep?
    ensures Spared(ApplyPrune(cfg, s, a), o, first)
  {
  }

  lemma StepSpares(cfg: Config, s: State, a: Action, o: Obj, first: bool)
    requires Spared(s, o, first) && Enabled(cfg, s, a) && Calm(a, o) && !a.PLoad? && (o.TreeObj? || o in s.used)
    ensures Spared(Apply(cfg, s, a), o, first)
  {
    hide Spared, EnabledPrune, ApplyPrune, EnabledBackup, ApplyBackup, EnabledRebuild, ApplyRebuild;
    if !OfPrune(a) {
      ClientSpares(cfg, s, a, o, first);
    } else if a.PWalk? || a.PList? || a.PDecide? {
      PlanningSpares(cfg, s, a, o, first);
    } else if a.PPutPack? || a.PWriteIndex? || a.PKeepIndex? {
      RepackingSpares(cfg, s, a, o, first);
    } else if a.PCheck? {
      CheckSpares(cfg, s, a.o, o, first);
    } else if a.PDelete? || a.PDeleteTouch? || a.PNext? {
      DeleteSpares(cfg, s, a, o, first);
    } else {
      MarkingSpares(cfg, s, a, o, first);
    }
  }

  lemma {:induction false} RunSpares(cfg: Config, s: State, run: seq<Action>, o: Obj, first: bool)
    requires IndexInv(s) && Runs(cfg, s, run) && Spared(s, o, first) && (o.TreeObj? || o in s.used)
    requires forall a | a in run :: Calm(a, o) && !a.PLoad?
    ensures Spared(After(cfg, s, run), o, first)
    decreases |run|
  {
    hide Spared, Enabled, Apply, IndexInv, Effective;
    if run != [] {
      assert run[0] in run;
      StepSpares(cfg, s, run[0], o, first);
      StepKeepsIndex(cfg, s, run[0]);
      RunSpares(cfg, Apply(cfg, s, run[0]), run[1..], o, first);
    }
  }

  lemma PassSpares(cfg: Config, s: State, run: seq<Action>, o: Obj, first: bool)
    requires IndexInv(s) && Pass(cfg, s, run, o) && o in s.objs && Contradicted(s, o) && (first ==> o in s.marks)
    requires o.TreeObj? || o in s.used
    ensures Spared(After(cfg, s, run), o, first)
  {
    hide IndexInv, Effective, Environment, Promised;
    var s1 := s.(prune := Loaded(s.now, Blobs(s.objs)));
    assert Apply(cfg, s, run[0]) == s1;
    assert run[0] in run && forall a | a in run[1..] :: a in run;
    StepKeepsIndex(cfg, s, run[0]);
    assert Spared(s1, o, first);
    hide Apply, Enabled, Spared;
    RunSpares(cfg, s1, run[1..], o, first);
  }

  lemma UsedObjectStays(cfg: Config, s: State, first: seq<Action>, pause: seq<Action>, second: seq<Action>, o: Obj)
    requires IndexInv(s) && TwoPasses(cfg, s, first, pause, second, o)
    requires o in s.objs && o in s.marks && Evidence(s, o, s.marks[o])
    ensures o in AfterBoth(cfg, s, first, pause, second, o).objs
  {
    hide IndexInv, Effective, Runs, Promised, Pass, Evidence;
    PassRuns(cfg, s, first, o);
    var s1 := After(cfg, s, first);
    var s2 := After(cfg, s1, pause);
    StoredIsSealed(s, o);
    PassSpares(cfg, s, first, o, true);
    IndexRun(cfg, s, first);
    assert forall a | a in pause :: Calm(a, o) && !a.PLoad?;
    RunSpares(cfg, s1, pause, o, true);
    IndexRun(cfg, s1, pause);
    PassSpares(cfg, s2, second, o, false);
  }

  lemma StoredIsSealed(s: State, o: Obj)
    requires IndexInv(s) && o in s.objs
    ensures o.TreeObj? || o in s.used
  {
  }

  lemma PassRuns(cfg: Config, s: State, run: seq<Action>, o: Obj)
    requires Pass(cfg, s, run, o)
    ensures Runs(cfg, s, run) && After(cfg, s, run).prune == Idle
  {
  }

  /** Of what was unneeded and marked before, two passes delete exactly what was not used since its mark. */
  lemma MarkedGoesIff(cfg: Config, s: State, first: seq<Action>, pause: seq<Action>, second: seq<Action>, o: Obj)
    requires cfg.Valid() && cfg.pruneGrace > 0 && Inv(cfg, s)
    requires Unneeded(s, o) && o in s.objs && o in s.marks && TwoPasses(cfg, s, first, pause, second, o)
    ensures o !in AfterBoth(cfg, s, first, pause, second, o).objs <==> !Evidence(s, o, s.marks[o])
  {
    hide Inv, Runs, Promised, Unneeded, Evidence, Pass, TwoPasses, AfterBoth;
    if Evidence(s, o, s.marks[o]) {
      InvParts(cfg, s);
      UsedObjectStays(cfg, s, first, pause, second, o);
    } else {
      TwoPassesDelete(cfg, s, first, pause, second, o);
    }
  }
}
