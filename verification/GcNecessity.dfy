/** Each promise that GcSafety relies on is needed: without it a run loses data. */
module GcNecessity {
  import opened Objects
  import opened ChunkTable
  import opened GcMachine

  datatype Promise = Grace | Margin | AtomicDelete | Apart

  /** Every promise but one. */
  ghost predicate AllBut(e: Promise, cfg: Config, s: State, a: Action) {
    && (e == Grace || GraceCoversBackup(cfg, s, a))
    && (e == Margin || CommitInMargin(cfg, s, a))
    && (e == AtomicDelete || DeleteStillDead(s, a))
    && (e == Apart || RebuildApart(s, a))
  }

  ghost predicate ReachableIn(e: Promise, cfg: Config, s: State, n: nat)
    decreases n
  {
    if n == 0 then Init(s)
    else exists r, a :: ReachableIn(e, cfg, r, n - 1) && Enabled(cfg, r, a) && AllBut(e, cfg, r, a) && s == Apply(cfg, r, a)
  }

  /** Some run from the empty repository that keeps every promise but one ends in `s`. */
  ghost predicate Reachable(e: Promise, cfg: Config, s: State) {
    exists n: nat :: ReachableIn(e, cfg, s, n)
  }

  lemma Take(e: Promise, cfg: Config, r: State, a: Action, s: State)
    requires Reachable(e, cfg, r) && Enabled(cfg, r, a) && AllBut(e, cfg, r, a) && s == Apply(cfg, r, a)
    ensures Reachable(e, cfg, s)
  {
    hide Enabled, AllBut, Apply, Init;
    var n: nat :| ReachableIn(e, cfg, r, n);
    assert ReachableIn(e, cfg, s, n + 1);
  }

  // ---------- the configuration and the objects of the stories ----------

  const CFG: Config := Config(10, 10)
  const X: Chunk := Chunk(0)

  /** An empty directory, and one with a file of one chunk. */
  const EMPTY_DIR: Tree := Tree(0, {}, {})
  const DIR: Tree := Tree(1, {X}, {})

  /** Two packs with the same chunk, written by two backups. */
  const P: Pack := Pack(0, {X})
  const Q: Pack := Pack(1, {X})
  const P_BLOB: Blob := Blob(0, {P}, {})
  const Q_BLOB: Blob := Blob(1, {Q}, {})

  ghost function Empty(): State {
    State(0, map[], map[], map[], map[], {}, map[], map[], Idle)
  }

  lemma EmptyIsReachable(e: Promise)
    ensures Reachable(e, CFG, Empty())
  {
    assert ReachableIn(e, CFG, Empty(), 0);
  }

  // ---------- single steps, with the state they lead to ----------

  lemma Waits(e: Promise, s: State, d: nat, s': State)
    requires Reachable(e, CFG, s) && s' == s.(now := s.now + d)
    ensures Reachable(e, CFG, s')
  {
    Take(e, CFG, s, Tick(d), s');
  }

  /** A backup starts, lists the marks and loads the index. */
  lemma Begins(e: Promise, s: State, k: nat, avail: set<Pack>, s': State)
    requires Reachable(e, CFG, s) && k !in s.backups
    requires avail == set p | p in ListedPacks(s.objs) && PackObj(p) !in s.marks
    requires s' == SetBackup(s, k, Backup(Working, s.now, s.marks, avail, {}, {}, {}, {}, s.now, map[], {}, {}, {}))
    ensures Reachable(e, CFG, s')
  {
    hide Reachable, ListedPacks;
    var b0 := Backup(Started, s.now, map[], {}, {}, {}, {}, {}, s.now, map[], {}, {}, {});
    var b1 := b0.(phase := MarksListed, marksAtStart := s.marks);
    Starts(e, s, k, SetBackup(s, k, b0));
    Lists(e, SetBackup(s, k, b0), k, SetBackup(s, k, b1));
    assert SetBackup(SetBackup(s, k, b0), k, b1) == SetBackup(s, k, b1);
    Loads(e, SetBackup(s, k, b1), k, s');
  }

  lemma Starts(e: Promise, s: State, k: nat, s': State)
    requires Reachable(e, CFG, s) && k !in s.backups
    requires s' == SetBackup(s, k, Backup(Started, s.now, map[], {}, {}, {}, {}, {}, s.now, map[], {}, {}, {}))
    ensures Reachable(e, CFG, s')
  {
    hide EnabledPrune, ApplyPrune, EnabledRebuild, ApplyRebuild;
    Take(e, CFG, s, BStart(k), s');
  }

  lemma Lists(e: Promise, s: State, k: nat, s': State)
    requires Reachable(e, CFG, s) && In(s, k, Started)
    requires s' == SetBackup(s, k, s.backups[k].(phase := MarksListed, marksAtStart := s.marks))
    ensures Reachable(e, CFG, s')
  {
    hide EnabledPrune, ApplyPrune, EnabledRebuild, ApplyRebuild;
    Take(e, CFG, s, BListMarks(k), s');
  }

  lemma Loads(e: Promise, s: State, k: nat, s': State)
    requires Reachable(e, CFG, s) && In(s, k, MarksListed)
    requires s' == SetBackup(s, k, s.backups[k].(phase := Working,
                     avail := set p | p in ListedPacks(s.objs) && PackObj(p) !in s.backups[k].marksAtStart))
    ensures Reachable(e, CFG, s')
  {
    hide EnabledPrune, ApplyPrune, EnabledRebuild, ApplyRebuild;
    Take(e, CFG, s, BLoadIndex(k), s');
  }

  lemma PutsPack(e: Promise, s: State, k: nat, p: Pack, s': State)
    requires Reachable(e, CFG, s) && In(s, k, Working) && NewName(s, p)
    requires s' == SetBackup(s, k, s.backups[k].(own := s.backups[k].own + {p}))
                   .(objs := s.objs[PackObj(p) := s.now], used := s.used + {PackObj(p)})
    ensures Reachable(e, CFG, s')
  {
    hide EnabledPrune, ApplyPrune, EnabledRebuild, ApplyRebuild;
    Take(e, CFG, s, BPutPack(k, p), s');
  }

  lemma Reuses(e: Promise, s: State, k: nat, c: Chunk, p: Pack, s': State)
    requires Reachable(e, CFG, s) && In(s, k, Working) && p in s.backups[k].avail && c in p.chunks
    requires s' == SetBackup(s, k, s.backups[k].(refs := s.backups[k].refs + {(c, p)}))
    ensures Reachable(e, CFG, s')
  {
    hide EnabledPrune, ApplyPrune, EnabledRebuild, ApplyRebuild;
    Take(e, CFG, s, BReuse(k, c, p), s');
  }

  lemma PutsTree(e: Promise, s: State, k: nat, t: Tree, s': State)
    requires Reachable(e, CFG, s) && In(s, k, Working)
    requires t !in s.backups[k].seen && t.links <= s.backups[k].seen && s' == PutTree(s, k, t)
    ensures Reachable(e, CFG, s')
  {
    hide EnabledPrune, ApplyPrune, EnabledRebuild, ApplyRebuild;
    Take(e, CFG, s, BPutTree(k, t), s');
  }

  lemma Touches(e: Promise, s: State, k: nat, t: Tree, s': State)
    requires Reachable(e, CFG, s) && In(s, k, Working) && t in s.backups[k].toTouch
    requires s' == SetBackup(s, k, s.backups[k].(toTouch := s.backups[k].toTouch - {t}))
                   .(touches := s.touches[t := s.now])
    ensures Reachable(e, CFG, s')
  {
    hide EnabledPrune, ApplyPrune, EnabledRebuild, ApplyRebuild;
    Take(e, CFG, s, BTouch(k, t), s');
  }

  lemma Finishes(e: Promise, s: State, k: nat, nonce: nat, s': State)
    requires Reachable(e, CFG, s) && In(s, k, Working) && s.backups[k].toTouch == {}
    requires forall c | c in ChunksOf(s.backups[k].seen) :: Covered(s.backups[k], c)
    requires IndexObj(Blob(nonce, s.backups[k].own, {})) !in s.used && s' == Finish(s, k, nonce)
    requires e == Grace || s.now < s.backups[k].started + 10
    ensures Reachable(e, CFG, s')
  {
    hide EnabledPrune, ApplyPrune, EnabledRebuild, ApplyRebuild;
    Take(e, CFG, s, BFinish(k, nonce), s');
  }

  lemma OpensGate(e: Promise, s: State, k: nat, s': State)
    requires Reachable(e, CFG, s) && In(s, k, Prepared) && s.now - s.backups[k].started < 5
    requires s' == SetBackup(s, k, s.backups[k].(phase := Gated, gateTime := s.now))
    ensures Reachable(e, CFG, s')
  {
    hide EnabledPrune, ApplyPrune, EnabledRebuild, ApplyRebuild;
    Take(e, CFG, s, BGateOpen(k), s');
  }

  lemma ListsAtGate(e: Promise, s: State, k: nat, s': State)
    requires Reachable(e, CFG, s) && In(s, k, Gated)
    requires s' == SetBackup(s, k, s.backups[k].(phase := Verifying, gateMarks := s.marks))
    ensures Reachable(e, CFG, s')
  {
    hide EnabledPrune, ApplyPrune, EnabledRebuild, ApplyRebuild;
    Take(e, CFG, s, BGateMarks(k), s');
  }

  lemma Reloads(e: Promise, s: State, k: nat, s': State)
    requires Reachable(e, CFG, s) && In(s, k, Verifying)
    requires s' == SetBackup(s, k, s.backups[k].(phase := Reloaded, reloaded := ListedPacks(s.objs)))
    ensures Reachable(e, CFG, s')
  {
    hide EnabledPrune, ApplyPrune, EnabledRebuild, ApplyRebuild;
    Take(e, CFG, s, BReload(k), s');
  }

  lemma FindsPack(e: Promise, s: State, k: nat, p: Pack, s': State)
    requires Reachable(e, CFG, s) && In(s, k, Reloaded)
    requires PackObj(p) in s.objs && !GateExpired(CFG, s.backups[k], PackObj(p))
    requires s' == SetBackup(s, k, s.backups[k].(found := s.backups[k].found + {p}))
    ensures Reachable(e, CFG, s')
  {
    hide EnabledPrune, ApplyPrune, EnabledRebuild, ApplyRebuild;
    Take(e, CFG, s, BFindPack(k, p), s');
  }

  lemma VerifiesChunks(e: Promise, s: State, k: nat, s': State)
    requires Reachable(e, CFG, s) && In(s, k, Reloaded)
    requires forall r | r in s.backups[k].refs ::
               exists p :: p in s.backups[k].found && ChosenFor(s.backups[k].gateMarks, s.backups[k].reloaded, r.0, p)
    requires s' == SetBackup(s, k, s.backups[k].(phase := Verified))
    ensures Reachable(e, CFG, s')
  {
    hide EnabledPrune, ApplyPrune, EnabledRebuild, ApplyRebuild;
    Take(e, CFG, s, BVerifyChunks(k), s');
  }

  /** The backup `b` as it has passed the chunk part of the gate at `now`. */
  ghost function PastChunks(b: Backup, now: Time, marks: map<Obj, Time>, listed: set<Pack>, found: set<Pack>): Backup {
    b.(phase := Verified, gateTime := now, gateMarks := marks, reloaded := listed, found := found)
  }

  lemma SetTwice(s: State, k: nat, b: Backup, b': Backup)
    ensures SetBackup(SetBackup(s, k, b), k, b') == SetBackup(s, k, b')
  {
  }

  /** The gate opens, lists the marks and reloads the index, at one moment. */
  lemma EntersGate(e: Promise, s: State, k: nat, listed: set<Pack>, s': State)
    requires Reachable(e, CFG, s) && In(s, k, Prepared) && s.now - s.backups[k].started < 5
    requires listed == ListedPacks(s.objs)
    requires s' == SetBackup(s, k, s.backups[k].(phase := Reloaded, gateTime := s.now, gateMarks := s.marks, reloaded := listed))
    ensures Reachable(e, CFG, s')
  {
    hide Reachable, ListedPacks;
    var b1 := s.backups[k].(phase := Gated, gateTime := s.now);
    OpensGate(e, s, k, SetBackup(s, k, b1));
    var b2 := b1.(phase := Verifying, gateMarks := s.marks);
    SetTwice(s, k, b1, b2);
    ListsAtGate(e, SetBackup(s, k, b1), k, SetBackup(s, k, b2));
    SetTwice(s, k, b2, s'.backups[k]);
    Reloads(e, SetBackup(s, k, b2), k, s');
  }

  /** From the opening of the gate to the end of its look at the chunks, at one moment. */
  lemma PassesChunks(e: Promise, s: State, k: nat, listed: set<Pack>, found: set<Pack>, s': State)
    requires Reachable(e, CFG, s) && In(s, k, Prepared) && s.now - s.backups[k].started < 5
    requires listed == ListedPacks(s.objs) && s.backups[k].found == {}
    requires found == {} || exists q :: found == {q}
    requires forall q | q in found :: PackObj(q) in s.objs && (PackObj(q) in s.marks ==> s.now < s.marks[PackObj(q)] + 10)
    requires forall r | r in s.backups[k].refs :: exists p :: p in found && ChosenFor(s.marks, listed, r.0, p)
    requires s' == SetBackup(s, k, PastChunks(s.backups[k], s.now, s.marks, listed, found))
    ensures Reachable(e, CFG, s')
  {
    hide Reachable, ListedPacks, ChosenFor;
    var b3 := s.backups[k].(phase := Reloaded, gateTime := s.now, gateMarks := s.marks, reloaded := listed);
    EntersGate(e, s, k, listed, SetBackup(s, k, b3));
    var b4 := b3.(found := found);
    if found != {} {
      var q :| found == {q};
      assert q in found && b3.found + {q} == found;
      SetTwice(s, k, b3, b4);
      FindsPack(e, SetBackup(s, k, b3), k, q, SetBackup(s, k, b4));
    }
    SetTwice(s, k, b4, s'.backups[k]);
    VerifiesChunks(e, SetBackup(s, k, b4), k, s');
  }

  lemma ConfirmsTree(e: Promise, s: State, k: nat, t: Tree, s': State)
    requires Reachable(e, CFG, s) && In(s, k, Verified) && t in s.backups[k].seen
    requires TreeObj(t) in s.backups[k].marksAtStart && s.backups[k].gateMarks == s.backups[k].marksAtStart
    requires TouchedSince(s, t, s.backups[k].marksAtStart[TreeObj(t)])
    requires s' == SetBackup(s, k, s.backups[k].(confirmed := s.backups[k].confirmed + {t}))
    ensures Reachable(e, CFG, s')
  {
    hide EnabledPrune, ApplyPrune, EnabledRebuild, ApplyRebuild;
    Take(e, CFG, s, BConfirmTree(k, t), s');
  }

  lemma Commits(e: Promise, s: State, k: nat, roots: set<Tree>, s': State)
    requires Reachable(e, CFG, s) && In(s, k, Verified) && s.snaps == map[] && roots <= s.backups[k].seen
    requires forall t | t in s.backups[k].seen && MustConfirm(CFG, s.backups[k], t) :: t in s.backups[k].confirmed
    requires e == Margin || s.now <= s.backups[k].gateTime + 5
    requires s' == s.(snaps := map[0 := roots], backups := s.backups - {k})
    ensures Reachable(e, CFG, s')
  {
    hide EnabledPrune, ApplyPrune, EnabledRebuild, ApplyRebuild;
    Take(e, CFG, s, BCommit(k, 0, roots), s');
  }

  lemma StopsBackup(e: Promise, s: State, k: nat, s': State)
    requires Reachable(e, CFG, s) && k in s.backups && s' == s.(backups := s.backups - {k})
    ensures Reachable(e, CFG, s')
  {
    hide EnabledPrune, ApplyPrune, EnabledRebuild, ApplyRebuild;
    Take(e, CFG, s, BStop(k), s');
  }

  // ---------- passes of prune over a repository without snapshots ----------

  ghost predicate Quiet(s: State) {
    s.prune == Idle && s.snaps == map[]
  }

  ghost function Walk(s: State): Prune {
    Walked(s.now, Blobs(s.objs), {}, {}, s.objs, {Packs, Trees, Indexes})
  }

  ghost function PlanOf(s: State, blocked: set<Obj>): Plan {
    Decide(CFG, s.(prune := Walk(s)), blocked, {})
  }

  ghost function At(s: State, plan: Plan, stage: Stage): State {
    s.(prune := Running(plan, stage))
  }

  ghost function Part(objs: map<Obj, Time>, kinds: set<Kind>): map<Obj, Time> {
    map o | o in objs && KindOf(o) in kinds :: objs[o]
  }

  lemma PartGrows(objs: map<Obj, Time>, kinds: set<Kind>, kind: Kind)
    ensures Part(objs, kinds + {kind}) == Part(objs, kinds) + map o | o in objs && KindOf(o) == kind :: objs[o]
  {
  }

  ghost function Looking(s: State, kinds: set<Kind>): State {
    s.(prune := Walked(s.now, Blobs(s.objs), {}, {}, Part(s.objs, kinds), kinds))
  }

  lemma ListsKind(e: Promise, s: State, kinds: set<Kind>, kind: Kind)
    requires Reachable(e, CFG, Looking(s, kinds)) && kind !in kinds
    ensures Reachable(e, CFG, Looking(s, kinds + {kind}))
  {
    hide Reachable, Part, Blobs, EnabledBackup, ApplyBackup, EnabledRebuild, ApplyRebuild;
    PartGrows(s.objs, kinds, kind);
    Take(e, CFG, Looking(s, kinds), PList(kind), Looking(s, kinds + {kind}));
  }

  lemma WalksNothing(e: Promise, s: State)
    requires Reachable(e, CFG, s) && Quiet(s) && (e == Apart || s.rebuilds == map[])
    ensures Reachable(e, CFG, s.(prune := Walk(s)))
  {
    hide Reachable, Part;
    Walks(e, s);
    NothingListed(s.objs);
    ListsKind(e, s, {}, Packs);
    ListsKind(e, s, {Packs}, Trees);
    assert {Packs} + {Trees} == {Packs, Trees};
    ListsKind(e, s, {Packs, Trees}, Indexes);
    assert {Packs, Trees} + {Indexes} == {Packs, Trees, Indexes};
  }

  lemma NothingListed(objs: map<Obj, Time>)
    ensures Part(objs, {}) == map[] && Part(objs, {Packs, Trees, Indexes}) == objs
    ensures var none: set<Kind> := {}; none + {Packs} == {Packs}
  {
  }

  lemma Walks(e: Promise, s: State)
    requires Reachable(e, CFG, s) && Quiet(s) && (e == Apart || s.rebuilds == map[])
    ensures Reachable(e, CFG, Looking(s, {}))
  {
    hide Reachable, EnabledBackup, ApplyBackup, EnabledRebuild, ApplyRebuild;
    var s1 := s.(prune := Loaded(s.now, Blobs(s.objs)));
    Take(e, CFG, s, PLoad, s1);
    assert LiveTrees(s.snaps) == {} && ChunksOf(LiveTrees(s.snaps)) == {};
    NothingListed(s.objs);
    Take(e, CFG, s1, PWalk, Looking(s, {}));
  }

  /** Load the index, walk the (empty) set of snapshots, decide. */
  lemma Plans(e: Promise, s: State, blocked: set<Obj>)
    requires Reachable(e, CFG, s) && Quiet(s) && (e == Apart || s.rebuilds == map[])
    ensures Reachable(e, CFG, At(s, PlanOf(s, blocked), Repacking({})))
  {
    hide EnabledBackup, ApplyBackup, EnabledRebuild, ApplyRebuild;
    WalksNothing(e, s);
    Take(e, CFG, s.(prune := Walk(s)), PDecide(blocked, {}), At(s, PlanOf(s, blocked), Repacking({})));
  }

  lemma NoneFailed(plan: Plan)
    ensures WithoutFailed(plan, {}) == plan
    ensures plan.referenced == {} ==> Repacked(plan, {}, {})
  {
  }

  lemma KeepsIndex(e: Promise, s: State, plan: Plan)
    requires Reachable(e, CFG, At(s, plan, Repacking({}))) && !NeedsRewrite(plan, {}) && plan.referenced == {}
    ensures Reachable(e, CFG, At(s, plan, FirstDeleting(plan)))
  {
    hide EnabledBackup, ApplyBackup, EnabledRebuild, ApplyRebuild;
    NoneFailed(plan);
    Take(e, CFG, At(s, plan, Repacking({})), PKeepIndex({}), At(s, plan, FirstDeleting(plan)));
  }

  lemma WritesIndex(e: Promise, s: State, plan: Plan, nonce: nat, s': State)
    requires Reachable(e, CFG, At(s, plan, Repacking({}))) && NeedsRewrite(plan, {}) && plan.referenced == {}
    requires IndexObj(NewIndex(plan, {}, nonce)) !in s.used
    requires s' == At(s, plan, FirstDeleting(plan))
                   .(objs := s.objs[IndexObj(NewIndex(plan, {}, nonce)) := s.now],
                     used := s.used + {IndexObj(NewIndex(plan, {}, nonce))})
    ensures Reachable(e, CFG, s')
  {
    hide EnabledBackup, ApplyBackup, EnabledRebuild, ApplyRebuild;
    NoneFailed(plan);
    Take(e, CFG, At(s, plan, Repacking({})), PWriteIndex(nonce, {}), s');
  }

  lemma Clears(e: Promise, s: State, plan: Plan, o: Obj, unmark: set<Obj>)
    requires Reachable(e, CFG, At(s, plan, Deleting({o}, {}, {}, unmark)))
    requires o in plan.toDelete && o in s.objs && !Evidence(s, o, plan.toDelete[o])
    ensures Reachable(e, CFG, At(s, plan, Deleting({}, {o}, {}, unmark)))
  {
    hide EnabledBackup, ApplyBackup, EnabledRebuild, ApplyRebuild;
    var r := At(s, plan, Deleting({o}, {}, {}, unmark));
    assert !Evidence(r, o, plan.toDelete[o]);
    assert {o} - {o} == {} && {} + {o} == {o};
    Take(e, CFG, r, PCheck(o), At(s, plan, Deleting({}, {o}, {}, unmark)));
  }

  /** Deletes the object and stops right away. */
  lemma Deletes(e: Promise, s: State, plan: Plan, o: Obj, unmark: set<Obj>, s': State)
    requires Reachable(e, CFG, At(s, plan, Deleting({}, {o}, {}, unmark))) && o in plan.toDelete
    requires e == AtomicDelete || !Evidence(s, o, plan.toDelete[o])
    requires s' == s.(objs := s.objs - {o}, prune := Idle)
    ensures Reachable(e, CFG, s')
  {
    hide EnabledBackup, ApplyBackup, EnabledRebuild, ApplyRebuild;
    var r := At(s, plan, Deleting({}, {o}, {}, unmark));
    assert Evidence(r, o, plan.toDelete[o]) ==> Evidence(s, o, plan.toDelete[o]);
    var r' := Apply(CFG, r, PDelete(o));
    Take(e, CFG, r, PDelete(o), r');
    Stops(e, r', s');
  }

  lemma Stops(e: Promise, s: State, s': State)
    requires Reachable(e, CFG, s) && s.prune.Running? && s' == s.(prune := Idle)
    ensures Reachable(e, CFG, s')
  {
    hide EnabledBackup, ApplyBackup, EnabledRebuild, ApplyRebuild;
    Take(e, CFG, s, PStop, s');
  }

  lemma StartsUnmarking(e: Promise, s: State, plan: Plan, unmark: set<Obj>)
    requires Reachable(e, CFG, At(s, plan, Deleting({}, {}, {}, unmark)))
    ensures Reachable(e, CFG, At(s, plan, Unmarking(unmark)))
  {
    hide EnabledBackup, ApplyBackup, EnabledRebuild, ApplyRebuild;
    Take(e, CFG, At(s, plan, Deleting({}, {}, {}, unmark)), PNext, At(s, plan, Unmarking(unmark)));
  }

  lemma Unmarks(e: Promise, s: State, plan: Plan, unmark: set<Obj>, o: Obj, s': State)
    requires Reachable(e, CFG, At(s, plan, Unmarking(unmark))) && o in unmark
    requires s' == s.(marks := s.marks - {o}, prune := Idle)
    ensures Reachable(e, CFG, s')
  {
    hide EnabledBackup, ApplyBackup, EnabledRebuild, ApplyRebuild;
    var r := At(s, plan, Unmarking(unmark));
    var r' := Apply(CFG, r, PUnmark(o));
    Take(e, CFG, r, PUnmark(o), r');
    Stops(e, r', s');
  }

  lemma StartsMarking(e: Promise, s: State, plan: Plan)
    requires Reachable(e, CFG, At(s, plan, Unmarking({})))
    ensures Reachable(e, CFG, At(s, plan, Marking(plan.toMark)))
  {
    hide EnabledBackup, ApplyBackup, EnabledRebuild, ApplyRebuild;
    Take(e, CFG, At(s, plan, Unmarking({})), PNext, At(s, plan, Marking(plan.toMark)));
  }

  lemma Marks(e: Promise, s: State, plan: Plan, o: Obj, s': State)
    requires Reachable(e, CFG, At(s, plan, Unmarking({}))) && o in plan.toMark && o !in s.marks
    requires s' == s.(marks := s.marks[o := s.now], prune := Idle)
    ensures Reachable(e, CFG, s')
  {
    hide EnabledBackup, ApplyBackup, EnabledRebuild, ApplyRebuild;
    var r := At(s, plan, Marking(plan.toMark));
    StartsMarking(e, s, plan);
    var r' := Apply(CFG, r, PMark(o));
    Take(e, CFG, r, PMark(o), r');
    Stops(e, r', s');
  }

  /** At most one blob, nothing gone from it: prune has no reason to rewrite the index. */
  ghost predicate Steady(s: State) {
    Blobs(s.objs) <= {Q_BLOB} && (IndexObj(Q_BLOB) in s.objs ==> PackObj(Q) in s.objs)
  }

  lemma SteadyKeepsIndex(s: State, blocked: set<Obj>)
    requires Quiet(s) && Steady(s) && PackObj(Q) !in PlanOf(s, blocked).toDelete
    ensures !NeedsRewrite(PlanOf(s, blocked), {})
  {
    var plan := PlanOf(s, blocked);
    assert plan.blobs == Blobs(s.objs);
    assert EffectiveOf(plan.blobs) <= {Q_BLOB};
    assert |EffectiveOf(plan.blobs)| <= 1 by {
      if EffectiveOf(plan.blobs) != {} {
        assert EffectiveOf(plan.blobs) == {Q_BLOB};
      }
    }
    forall p | p in IndexedIn(plan.blobs) ensures p == Q && PackObj(p) in s.objs {
      assert IndexObj(Q_BLOB) in s.objs;
    }
    assert plan.phantoms == {} && DeletedPacks(plan) == {};
  }

  /** Prune marks `o`, then stops. */
  lemma MarkPass(e: Promise, s: State, o: Obj, s': State)
    requires Reachable(e, CFG, s) && Quiet(s) && Steady(s) && (e == Apart || s.rebuilds == map[]) && s.marks == map[]
    requires o in s.objs && !o.IndexObj? && s.objs[o] + 10 <= s.now
    requires s' == s.(marks := map[o := s.now])
    ensures Reachable(e, CFG, s')
  {
    hide Reachable;
    var plan := PlanOf(s, {});
    assert plan.toDelete == map[] && plan.toUnmark == {};
    assert o in plan.toMark;
    Plans(e, s, {});
    SteadyKeepsIndex(s, {});
    KeepsIndex(e, s, plan);
    assert FirstDeleting(plan) == Deleting({}, {}, {}, {});
    StartsUnmarking(e, s, plan, {});
    Marks(e, s, plan, o, s');
  }

  /** Prune finds `o` dead and is about to delete it. */
  lemma ClearPass(e: Promise, s: State, o: Obj, plan: Plan)
    requires Reachable(e, CFG, s) && Quiet(s) && Steady(s) && (e == Apart || s.rebuilds == map[])
    requires s.marks.Keys == {o} && o in s.objs && !o.IndexObj? && o != PackObj(Q)
    requires s.marks[o] + 10 <= s.now && !Evidence(s, o, s.marks[o])
    requires plan == PlanOf(s, {})
    ensures plan.toDelete == s.marks
    ensures Reachable(e, CFG, At(s, plan, Deleting({}, {o}, {}, plan.toUnmark)))
  {
    hide Reachable;
    assert plan.toDelete == s.marks;
    Plans(e, s, {});
    SteadyKeepsIndex(s, {});
    KeepsIndex(e, s, plan);
    Clears(e, s, plan, o, plan.toUnmark);
  }

  /** Prune removes the mark of an object that is gone, then stops. */
  lemma UnmarkPass(e: Promise, s: State, o: Obj, s': State)
    requires Reachable(e, CFG, s) && Quiet(s) && Steady(s) && (e == Apart || s.rebuilds == map[])
    requires s.marks.Keys == {o} && o !in s.objs && s' == s.(marks := map[])
    ensures Reachable(e, CFG, s')
  {
    hide Reachable;
    var plan := PlanOf(s, {});
    assert plan.toDelete == map[] && plan.toUnmark == {o};
    Plans(e, s, {});
    SteadyKeepsIndex(s, {});
    KeepsIndex(e, s, plan);
    assert FirstDeleting(plan) == Deleting({}, {}, {}, {o});
    StartsUnmarking(e, s, plan, {o});
    assert s.marks - {o} == map[];
    Unmarks(e, s, plan, {o}, o, s');
  }

  lemma AddToNothing(t: Tree)
    ensures var none: set<Tree> := {}; none + {t} == {t}
  {
  }

  // ---------- without the atomic delete ----------

  /** One backup has left an empty directory behind, and a prune has marked it at 10. */
  ghost function Abandoned(now: Time, marks: map<Obj, Time>): State {
    State(now, map[TreeObj(EMPTY_DIR) := 0], map[], marks, map[], {}, map[], map[], Idle)
  }

  lemma AbandonedIsReachable(e: Promise)
    ensures Reachable(e, CFG, Abandoned(20, map[TreeObj(EMPTY_DIR) := 10]))
  {
    hide Reachable;
    var s0 := Empty();
    EmptyIsReachable(e);
    var b := Backup(Working, 0, map[], {}, {}, {}, {}, {}, 0, map[], {}, {}, {});
    var s1 := SetBackup(s0, 0, b);
    assert ListedPacks(s0.objs) == {};
    Begins(e, s0, 0, {}, s1);
    var s2 := PutTree(s1, 0, EMPTY_DIR);
    PutsTree(e, s1, 0, EMPTY_DIR, s2);
    assert s2.backups - {0} == map[];
    var s3 := Abandoned(0, map[]);
    assert s3 == s2.(backups := s2.backups - {0});
    StopsBackup(e, s2, 0, s3);
    var s4 := Abandoned(10, map[]);
    Waits(e, s3, 10, s4);
    assert Blobs(s4.objs) == {};
    var s5 := Abandoned(10, map[TreeObj(EMPTY_DIR) := 10]);
    MarkPass(e, s4, TreeObj(EMPTY_DIR), s5);
    Waits(e, s5, 10, Abandoned(20, map[TreeObj(EMPTY_DIR) := 10]));
  }

  /** A backup meets the marked directory, touches it and passes the gate. */
  ghost function Reviver(phase: Phase, seen: set<Tree>, toTouch: set<Tree>, confirmed: set<Tree>): Backup {
    var marks := map[TreeObj(EMPTY_DIR) := 10 as Time];
    Backup(phase, 20, marks, {}, {}, {}, seen, toTouch, 20, if phase.Working? || phase.Prepared? then map[] else marks,
           {}, {}, confirmed)
  }

  lemma RevivesTree(e: Promise, r: State, s': State)
    requires Reachable(e, CFG, r)
    requires r == Abandoned(20, map[TreeObj(EMPTY_DIR) := 10]).(prune := r.prune)
    requires s' == r.(touches := map[EMPTY_DIR := 20], backups := map[1 := Reviver(Prepared, {EMPTY_DIR}, {}, {})])
    ensures Reachable(e, CFG, s')
  {
    hide Reachable;
    assert ListedPacks(r.objs) == {};
    var r1 := r.(backups := map[1 := Reviver(Working, {}, {}, {})]);
    Begins(e, r, 1, {}, r1);
    var r2 := r.(backups := map[1 := Reviver(Working, {EMPTY_DIR}, {EMPTY_DIR}, {})]);
    AddToNothing(EMPTY_DIR);
    assert PutTree(r1, 1, EMPTY_DIR) == r2;
    PutsTree(e, r1, 1, EMPTY_DIR, r2);
    var r3 := r.(touches := map[EMPTY_DIR := 20], backups := map[1 := Reviver(Working, {EMPTY_DIR}, {}, {})]);
    assert {EMPTY_DIR} - {EMPTY_DIR} == {};
    Touches(e, r2, 1, EMPTY_DIR, r3);
    assert ChunksOf({EMPTY_DIR}) == {};
    Finishes(e, r3, 1, 0, s');
  }

  lemma CommitsTree(e: Promise, r: State, s': State)
    requires Reachable(e, CFG, r) && r.now == 20 && r.snaps == map[]
    requires r.marks == map[TreeObj(EMPTY_DIR) := 10] && r.objs.Keys == {TreeObj(EMPTY_DIR)}
    requires r.touches == map[EMPTY_DIR := 20] && r.backups == map[1 := Reviver(Prepared, {EMPTY_DIR}, {}, {})]
    requires s' == r.(snaps := map[0 := {EMPTY_DIR}], backups := map[])
    ensures Reachable(e, CFG, s')
  {
    hide Reachable;
    assert Blobs(r.objs) == {} && ListedPacks(r.objs) == {};
    var r2 := r.(backups := map[1 := Reviver(Verified, {EMPTY_DIR}, {}, {})]);
    PassesChunks(e, r, 1, {}, {}, r2);
    AddToNothing(EMPTY_DIR);
    var r3 := r.(backups := map[1 := Reviver(Verified, {EMPTY_DIR}, {}, {EMPTY_DIR})]);
    ConfirmsTree(e, r2, 1, EMPTY_DIR, r3);
    assert r3.backups - {1} == map[];
    Commits(e, r3, 1, {EMPTY_DIR}, s');
  }

  lemma MissingTreeIsNotIntact(s: State)
    requires s.snaps == map[0 := {EMPTY_DIR}] && TreeObj(EMPTY_DIR) !in s.objs
    ensures !Intact(s)
  {
    assert 0 in s.snaps && EMPTY_DIR in s.snaps[0] && EMPTY_DIR in Reach(EMPTY_DIR);
    assert EMPTY_DIR in LiveTrees(s.snaps);
  }

  /** Between prune's HEAD requests and its DELETE a backup can touch the tree, pass the gate and
      commit: if the DELETE goes through then, the snapshot has lost a tree. */
  lemma DeleteMustBeAtomic()
    ensures exists s :: Reachable(AtomicDelete, CFG, s) && !Intact(s)
  {
    hide Reachable, Intact;
    var e := AtomicDelete;
    var dir := TreeObj(EMPTY_DIR);
    var s := Abandoned(20, map[dir := 10]);
    AbandonedIsReachable(e);
    assert Blobs(s.objs) == {};
    var plan := PlanOf(s, {});
    ClearPass(e, s, dir, plan);
    var r := At(s, plan, Deleting({}, {dir}, {}, plan.toUnmark));
    var r1 := r.(touches := map[EMPTY_DIR := 20], backups := map[1 := Reviver(Prepared, {EMPTY_DIR}, {}, {})]);
    RevivesTree(e, r, r1);
    var r2 := r1.(snaps := map[0 := {EMPTY_DIR}], backups := map[]);
    CommitsTree(e, r1, r2);
    var r3 := r2.(objs := r2.objs - {dir}, prune := Idle);
    assert r2 == At(r2, plan, Deleting({}, {dir}, {}, plan.toUnmark));
    Deletes(e, r2, plan, dir, plan.toUnmark, r3);
    MissingTreeIsNotIntact(r3);
  }

  // ---------- without the margin ----------

  ghost function Early(phase: Phase, seen: set<Tree>): Backup {
    Backup(phase, 0, map[], {}, {}, {}, seen, {}, 0, map[], {}, {}, {})
  }

  /** A backup that has passed its gate at time 0. */
  ghost function Passed(now: Time, objs: map<Obj, Time>, marks: map<Obj, Time>): State {
    State(now, objs, map[], marks, map[], {}, map[0 := Early(Verified, {EMPTY_DIR})], map[], Idle)
  }

  lemma PassedIsReachable(e: Promise)
    ensures Reachable(e, CFG, Passed(0, map[TreeObj(EMPTY_DIR) := 0], map[]))
  {
    hide Reachable;
    var s0 := Empty();
    EmptyIsReachable(e);
    assert ListedPacks(s0.objs) == {};
    var s1 := s0.(backups := map[0 := Early(Working, {})]);
    Begins(e, s0, 0, {}, s1);
    var s2 := Passed(0, map[TreeObj(EMPTY_DIR) := 0], map[]).(backups := map[0 := Early(Working, {EMPTY_DIR})]);
    AddToNothing(EMPTY_DIR);
    assert PutTree(s1, 0, EMPTY_DIR) == s2;
    PutsTree(e, s1, 0, EMPTY_DIR, s2);
    assert ChunksOf({EMPTY_DIR}) == {};
    var s3 := s2.(backups := map[0 := Early(Prepared, {EMPTY_DIR})]);
    Finishes(e, s2, 0, 0, s3);
    assert Blobs(s3.objs) == {} && ListedPacks(s3.objs) == {};
    PassesChunks(e, s3, 0, {}, {}, Passed(0, map[TreeObj(EMPTY_DIR) := 0], map[]));
  }

  /** A client that waits a whole grace between the gate and the snapshot commits a snapshot whose
      tree prune has marked and deleted meanwhile. */
  lemma CommitMustBePrompt()
    ensures exists s :: Reachable(Margin, CFG, s) && !Intact(s)
  {
    hide Reachable, Intact;
    var e := Margin;
    var dir := TreeObj(EMPTY_DIR);
    var objs := map[dir := 0 as Time];
    PassedIsReachable(e);
    assert Blobs(objs) == {};
    var s1 := Passed(10, objs, map[]);
    Waits(e, Passed(0, objs, map[]), 10, s1);
    var s2 := Passed(10, objs, map[dir := 10]);
    MarkPass(e, s1, dir, s2);
    var s3 := Passed(20, objs, map[dir := 10]);
    Waits(e, s2, 10, s3);
    var plan := PlanOf(s3, {});
    ClearPass(e, s3, dir, plan);
    var s4 := Passed(20, map[], map[dir := 10]);
    assert objs - {dir} == map[];
    Deletes(e, s3, plan, dir, plan.toUnmark, s4);
    var s5 := s4.(snaps := map[0 := {EMPTY_DIR}], backups := map[]);
    assert s4.backups - {0} == map[];
    Commits(e, s4, 0, {EMPTY_DIR}, s5);
    MissingTreeIsNotIntact(s5);
  }

  // ---------- two ways to publish a pack that is gone ----------

  /** Who publishes the pack that is gone: a backup that takes longer than the grace, or a rebuild that read the
      pack's trailer before prune deleted it. */
  datatype Culprit = LateBackup | RebuildBeside {
    function Broken(): Promise {
      if LateBackup? then Grace else Apart
    }

    /** The blob that lists `P` when `P` is gone. */
    function Misleading(): Blob {
      if LateBackup? then P_BLOB else Blob(0, {P, Q}, {Q_BLOB})
    }

    /** The rebuild while prune is at work. */
    ghost function Rebuilds(): map<nat, Rebuild> {
      if LateBackup? then map[] else map[0 := PacksListed({Q_BLOB}, {}, {P, Q})]
    }
  }

  /** The slow backup: it writes `P` at time 0, and may publish its index only after the grace. */
  ghost function Slow(phase: Phase, own: set<Pack>): Backup {
    Backup(phase, 0, map[], {}, {}, own, {}, {}, 0, map[], {}, {}, {})
  }

  /** `Q`, with the blob that lists it, and the slow backup still at work. */
  ghost function TwoPacks(now: Time, withP: bool, marks: map<Obj, Time>, rebuilds: map<nat, Rebuild>): State {
    var rest := map[PackObj(Q) := 0 as Time, IndexObj(Q_BLOB) := 0];
    State(now, if withP then rest[PackObj(P) := 0] else rest, map[], marks, map[],
          {PackObj(P), PackObj(Q), IndexObj(Q_BLOB)}, map[0 := Slow(Working, {P})], rebuilds, Idle)
  }

  lemma AddPackToNothing(p: Pack)
    ensures var none: set<Pack> := {}; none + {p} == {p}
  {
  }

  lemma WritesP(e: Promise, s: State)
    requires s == State(0, map[PackObj(P) := 0], map[], map[], map[], {PackObj(P)}, map[0 := Slow(Working, {P})], map[], Idle)
    ensures Reachable(e, CFG, s)
  {
    hide Reachable;
    var s0 := Empty();
    EmptyIsReachable(e);
    assert ListedPacks(s0.objs) == {};
    var s1 := s0.(backups := map[0 := Slow(Working, {})]);
    Begins(e, s0, 0, {}, s1);
    AddPackToNothing(P);
    PutsPack(e, s1, 0, P, s);
  }

  /** `P` is written, and a second backup has begun and written `Q`. */
  ghost function BothWritten(): State {
    State(0, map[PackObj(P) := 0, PackObj(Q) := 0], map[], map[], map[], {PackObj(P), PackObj(Q)},
          map[0 := Slow(Working, {P}), 1 := Slow(Working, {Q})], map[], Idle)
  }

  lemma WritesBoth(e: Promise)
    ensures Reachable(e, CFG, BothWritten())
  {
    hide Reachable;
    var s1 := State(0, map[PackObj(P) := 0], map[], map[], map[], {PackObj(P)}, map[0 := Slow(Working, {P})], map[], Idle);
    WritesP(e, s1);
    assert Blobs(s1.objs) == {} && ListedPacks(s1.objs) == {};
    var s2 := s1.(backups := s1.backups[1 := Slow(Working, {})]);
    Begins(e, s1, 1, {}, s2);
    AddPackToNothing(Q);
    assert s1.objs[PackObj(Q) := 0] == BothWritten().objs && s1.used + {PackObj(Q)} == BothWritten().used;
    PutsPack(e, s2, 1, Q, BothWritten());
  }

  lemma WritesQ(e: Promise)
    ensures Reachable(e, CFG, TwoPacks(0, true, map[], map[]))
  {
    hide Reachable;
    WritesBoth(e);
    var s4 := Finish(BothWritten(), 1, 1);
    assert ChunksOf({}) == {};
    Finishes(e, BothWritten(), 1, 1, s4);
    var s5 := TwoPacks(0, true, map[], map[]);
    assert s4.backups - {1} == s5.backups;
    assert s4.used == s5.used && s4.objs == s5.objs;
    StopsBackup(e, s4, 1, s5);
  }

  lemma TwoPacksAreSteady(now: Time, withP: bool, marks: map<Obj, Time>, rebuilds: map<nat, Rebuild>)
    ensures Quiet(TwoPacks(now, withP, marks, rebuilds)) && Steady(TwoPacks(now, withP, marks, rebuilds))
  {
  }

  lemma ReadsPack(e: Promise, s: State, p: Pack, s': State)
    requires Reachable(e, CFG, s) && 0 in s.rebuilds && s.rebuilds[0].PacksListed?
    requires p in s.rebuilds[0].todo && PackObj(p) in s.objs
    requires s' == SetRebuild(s, 0, s.rebuilds[0].(todo := s.rebuilds[0].todo - {p}, read := s.rebuilds[0].read + {p}))
    ensures Reachable(e, CFG, s')
  {
    hide EnabledBackup, ApplyBackup, EnabledPrune, ApplyPrune;
    Take(e, CFG, s, RReadPack(0, p), s');
  }

  lemma ListsForRebuild(e: Promise, s: State, s': State)
    requires Reachable(e, CFG, s) && s.rebuilds == map[] && (e == Apart || s.prune.Idle?)
    requires s' == s.(rebuilds := map[0 := PacksListed(Blobs(s.objs), PacksOf(s.objs), {})])
    ensures Reachable(e, CFG, s')
  {
    hide Reachable, EnabledBackup, ApplyBackup, EnabledPrune, ApplyPrune;
    var s1 := SetRebuild(s, 0, BlobsListed(Blobs(s.objs)));
    Take(e, CFG, s, RListBlobs(0), s1);
    assert SetRebuild(s1, 0, PacksListed(Blobs(s.objs), PacksOf(s.objs), {})) == s';
    Take(e, CFG, s1, RListPacks(0), s');
  }

  /** The rebuild reads both packs while they are there. */
  lemma ReadsBoth(s: State, s': State)
    requires Reachable(Apart, CFG, s)
    requires s == TwoPacks(20, true, map[PackObj(P) := 10], map[])
    requires s' == TwoPacks(20, true, map[PackObj(P) := 10], RebuildBeside.Rebuilds())
    ensures Reachable(Apart, CFG, s')
  {
    hide Reachable;
    assert Blobs(s.objs) == {Q_BLOB} && PacksOf(s.objs) == {P, Q} by {
      assert IndexObj(Q_BLOB) in s.objs && PackObj(P) in s.objs && PackObj(Q) in s.objs;
    }
    var s1 := s.(rebuilds := map[0 := PacksListed({Q_BLOB}, {P, Q}, {})]);
    ListsForRebuild(Apart, s, s1);
    AddPackToNothing(P);
    assert {P, Q} - {P} == {Q} && {Q} - {Q} == {} && {P} + {Q} == {P, Q};
    var s2 := s.(rebuilds := map[0 := PacksListed({Q_BLOB}, {Q}, {P})]);
    ReadsPack(Apart, s1, P, s2);
    ReadsPack(Apart, s2, Q, s');
  }

  lemma MarksP(e: Promise)
    ensures Reachable(e, CFG, TwoPacks(20, true, map[PackObj(P) := 10], map[]))
  {
    hide Reachable, Quiet, Steady;
    WritesQ(e);
    var s1 := TwoPacks(10, true, map[], map[]);
    Waits(e, TwoPacks(0, true, map[], map[]), 10, s1);
    TwoPacksAreSteady(10, true, map[], map[]);
    var s2 := TwoPacks(10, true, map[PackObj(P) := 10], map[]);
    MarkPass(e, s1, PackObj(P), s2);
    Waits(e, s2, 10, TwoPacks(20, true, map[PackObj(P) := 10], map[]));
  }

  /** Prune takes `P` away and marks `Q`; a rebuild may stand beside it with both packs in its hands. */
  lemma LosesP(x: Culprit)
    ensures Reachable(x.Broken(), CFG, TwoPacks(20, false, map[PackObj(Q) := 20], x.Rebuilds()))
  {
    hide Reachable, Quiet, Steady;
    var e, rs := x.Broken(), x.Rebuilds();
    var p, q := PackObj(P), PackObj(Q);
    MarksP(e);
    var s3 := TwoPacks(20, true, map[p := 10], rs);
    if x.RebuildBeside? {
      ReadsBoth(TwoPacks(20, true, map[p := 10], map[]), s3);
    }
    TwoPacksAreSteady(20, true, map[p := 10], rs);
    var plan := PlanOf(s3, {});
    ClearPass(e, s3, p, plan);
    var s4 := TwoPacks(20, false, map[p := 10], rs);
    assert s3.objs - {p} == s4.objs;
    Deletes(e, s3, plan, p, plan.toUnmark, s4);
    TwoPacksAreSteady(20, false, map[p := 10], rs);
    var s5 := TwoPacks(20, false, map[], rs);
    UnmarkPass(e, s4, p, s5);
    TwoPacksAreSteady(20, false, map[], rs);
    MarkPass(e, s5, q, TwoPacks(20, false, map[q := 20], rs));
  }

  /** The blob for the pack that is gone is out. */
  ghost function Phantom(x: Culprit, now: Time): State {
    var m := IndexObj(x.Misleading());
    State(now, map[PackObj(Q) := 0, IndexObj(Q_BLOB) := 0, m := 20], map[], map[PackObj(Q) := 20],
          map[], {PackObj(P), PackObj(Q), IndexObj(Q_BLOB), m},
          map[0 := Slow(if x.LateBackup? then Prepared else Working, {P})], map[], Idle)
  }

  lemma WritesRebuilt(s: State, s': State)
    requires Reachable(Apart, CFG, s) && s.rebuilds == RebuildBeside.Rebuilds()
    requires IndexObj(RebuildBeside.Misleading()) !in s.used
    requires s' == s.(objs := s.objs[IndexObj(RebuildBeside.Misleading()) := s.now],
                      used := s.used + {IndexObj(RebuildBeside.Misleading())}, rebuilds := map[])
    ensures Reachable(Apart, CFG, s')
  {
    hide Reachable, EnabledBackup, ApplyBackup, EnabledPrune, ApplyPrune;
    assert s.rebuilds - {0} == map[];
    Take(Apart, CFG, s, RWrite(0, 0), s');
  }

  lemma PhantomIsReachable(x: Culprit)
    ensures Reachable(x.Broken(), CFG, Phantom(x, 22))
  {
    hide Reachable;
    LosesP(x);
    var s := TwoPacks(20, false, map[PackObj(Q) := 20], x.Rebuilds());
    if x.LateBackup? {
      assert ChunksOf({}) == {};
      assert Finish(s, 0, 0) == Phantom(x, 20);
      Finishes(Grace, s, 0, 0, Phantom(x, 20));
    } else {
      WritesRebuilt(s, Phantom(x, 20));
    }
    Waits(x.Broken(), Phantom(x, 20), 2, Phantom(x, 22));
  }

  lemma PhantomLists(x: Culprit, s: State)
    requires s.objs.Keys == Phantom(x, 22).objs.Keys || s.objs.Keys == Phantom(x, 22).objs.Keys + {TreeObj(DIR)}
    ensures Blobs(s.objs) == {x.Misleading(), Q_BLOB} && ListedPacks(s.objs) == {P, Q}
  {
    assert IndexObj(x.Misleading()) in s.objs && IndexObj(Q_BLOB) in s.objs;
    var bs := Blobs(s.objs);
    assert bs == {x.Misleading(), Q_BLOB};
    assert EffectiveIn(bs, x.Misleading());
    assert P in x.Misleading().packs;
    if x.LateBackup? {
      assert EffectiveIn(bs, Q_BLOB) && Q in Q_BLOB.packs;
    } else {
      assert Q in x.Misleading().packs;
    }
  }

  /** A backup that trusts the blob: it started at 22 and keeps every promise. */
  ghost function Trusting(phase: Phase, refs: set<(Chunk, Pack)>, seen: set<Tree>, gate: Time): Backup {
    var past := phase.Verified?;
    Backup(phase, 22, map[PackObj(Q) := 20], {P}, refs, {}, seen, {}, gate,
           if past then map[PackObj(Q) := 20] else map[], if past then {Q} else {}, if past then {Q} else {}, {})
  }

  ghost function Beside(x: Culprit, now: Time, withDir: bool, b: Backup): State {
    var s := Phantom(x, now);
    s.(backups := s.backups[2 := b], objs := if withDir then s.objs[TreeObj(DIR) := 22] else s.objs)
  }

  /** Prune's rewritten index: the phantom is dropped, and later `Q` as well. */
  ghost function CleanBlob(x: Culprit): Blob {
    Blob(2, {Q}, {x.Misleading(), Q_BLOB})
  }

  ghost function EmptyBlob(x: Culprit): Blob {
    Blob(3, {}, {x.Misleading(), Q_BLOB, CleanBlob(x)})
  }

  ghost function Cleaned(x: Culprit, now: Time, b: Backup): State {
    var s := Beside(x, now, true, b);
    s.(objs := s.objs[IndexObj(CleanBlob(x)) := 22], used := s.used + {IndexObj(CleanBlob(x))})
  }

  lemma ReusesPhantom(x: Culprit, s': State)
    requires s' == Beside(x, 22, false, Trusting(Working, {(X, P)}, {}, 22))
    ensures Reachable(x.Broken(), CFG, s')
  {
    hide Reachable;
    PhantomIsReachable(x);
    var s := Phantom(x, 22);
    PhantomLists(x, s);
    var s1 := Beside(x, 22, false, Trusting(Working, {}, {}, 22));
    assert (set p | p in ListedPacks(s.objs) && PackObj(p) !in s.marks) == {P};
    Begins(x.Broken(), s, 2, {P}, s1);
    var none: set<(Chunk, Pack)> := {};
    assert none + {(X, P)} == {(X, P)};
    Reuses(x.Broken(), s1, 2, X, P, s');
  }

  lemma WritesDir(x: Culprit, s': State)
    requires s' == Beside(x, 22, true, Trusting(Working, {(X, P)}, {DIR}, 22))
    ensures Reachable(x.Broken(), CFG, s')
  {
    hide Reachable, ListedPacks, Blobs, LiveTrees;
    var s2 := Beside(x, 22, false, Trusting(Working, {(X, P)}, {}, 22));
    ReusesPhantom(x, s2);
    AddToNothing(DIR);
    assert PutTree(s2, 2, DIR) == s';
    PutsTree(x.Broken(), s2, 2, DIR, s');
  }

  lemma FinishesOnPhantom(x: Culprit, s': State)
    requires s' == Beside(x, 22, true, Trusting(Prepared, {(X, P)}, {DIR}, 22))
    ensures Reachable(x.Broken(), CFG, s')
  {
    hide Reachable, ListedPacks, Blobs, LiveTrees;
    var s3 := Beside(x, 22, true, Trusting(Working, {(X, P)}, {DIR}, 22));
    WritesDir(x, s3);
    forall c | c in ChunksOf({DIR}) ensures Covered(s3.backups[2], c) {
      assert (c, P) in s3.backups[2].refs;
    }
    Finishes(x.Broken(), s3, 2, 5, s');
  }

  lemma PlanWithoutP(x: Culprit, s: State, plan: Plan)
    requires s == Beside(x, 22, true, Trusting(Prepared, {(X, P)}, {DIR}, 22)) && plan == PlanOf(s, {})
    ensures NeedsRewrite(plan, {}) && NewIndex(plan, {}, 2) == CleanBlob(x) && plan.referenced == {}
  {
    PhantomLists(x, s);
    assert plan.toDelete == map[];
    assert plan.phantoms == {P} && DeletedPacks(plan) == {};
  }

  /** A prune meanwhile drops the phantom from the index, and stops there. */
  lemma DropsPhantom(x: Culprit, s': State)
    requires s' == Cleaned(x, 22, Trusting(Prepared, {(X, P)}, {DIR}, 22))
    ensures Reachable(x.Broken(), CFG, s')
  {
    hide Reachable, PlanOf, NeedsRewrite, NewIndex;
    var e := x.Broken();
    var s := Beside(x, 22, true, Trusting(Prepared, {(X, P)}, {DIR}, 22));
    FinishesOnPhantom(x, s);
    var plan := PlanOf(s, {});
    PlanWithoutP(x, s, plan);
    Plans(e, s, {});
    var s1 := At(s', plan, FirstDeleting(plan));
    WritesIndex(e, s, plan, 2, s1);
    Stops(e, s1, s');
  }

  lemma CleanedLists(x: Culprit, s: State)
    requires s.objs.Keys == Cleaned(x, 22, Trusting(Prepared, {(X, P)}, {DIR}, 22)).objs.Keys
    ensures Blobs(s.objs) == {x.Misleading(), Q_BLOB, CleanBlob(x)} && ListedPacks(s.objs) == {Q}
  {
    var m, c := x.Misleading(), CleanBlob(x);
    assert IndexObj(m) in s.objs && IndexObj(Q_BLOB) in s.objs && IndexObj(c) in s.objs;
    var bs := Blobs(s.objs);
    assert bs == {m, Q_BLOB, c};
    assert c !in m.supersedes && c !in Q_BLOB.supersedes;
    assert EffectiveIn(bs, c) && !EffectiveIn(bs, m) && !EffectiveIn(bs, Q_BLOB);
    assert Q in c.packs;
  }

  lemma GateAcceptsQ(marks: map<Obj, Time>)
    ensures ChosenFor(marks, {Q}, X, Q)
  {
    assert HolderNames({Q}, X) == {Q.name};
  }

  lemma GateOnQ(x: Culprit, s1: State, s': State)
    requires s1 == Cleaned(x, 26, Trusting(Prepared, {(X, P)}, {DIR}, 22))
    requires s' == Cleaned(x, 26, Trusting(Verified, {(X, P)}, {DIR}, 26))
    ensures s' == SetBackup(s1, 2, PastChunks(s1.backups[2], 26, s1.marks, {Q}, {Q}))
    ensures PackObj(Q) in s1.objs && s1.marks == map[PackObj(Q) := 20] && s1.now == 26
    ensures In(s1, 2, Prepared) && s1.backups[2].refs == {(X, P)} && s1.backups[2].found == {} && s1.backups[2].started == 22
  {
  }

  /** The gate finds the chunk in `Q`, whose mark has not expired yet. */
  lemma GateTrustsQ(x: Culprit, s': State)
    requires s' == Cleaned(x, 30, Trusting(Verified, {(X, P)}, {DIR}, 26))
    ensures Reachable(x.Broken(), CFG, s')
  {
    hide Reachable, ListedPacks, Blobs, ChosenFor;
    var e := x.Broken();
    var s1 := Cleaned(x, 26, Trusting(Prepared, {(X, P)}, {DIR}, 22));
    DropsPhantom(x, Cleaned(x, 22, Trusting(Prepared, {(X, P)}, {DIR}, 22)));
    Waits(e, Cleaned(x, 22, Trusting(Prepared, {(X, P)}, {DIR}, 22)), 4, s1);
    var s3 := Cleaned(x, 26, Trusting(Verified, {(X, P)}, {DIR}, 26));
    ChecksQ(x, s1, s3);
    Waits(e, s3, 4, s');
  }

  lemma ChecksQ(x: Culprit, s1: State, s3: State)
    requires Reachable(x.Broken(), CFG, s1) && s1 == Cleaned(x, 26, Trusting(Prepared, {(X, P)}, {DIR}, 22))
    requires s3 == Cleaned(x, 26, Trusting(Verified, {(X, P)}, {DIR}, 26))
    ensures Reachable(x.Broken(), CFG, s3)
  {
    hide Reachable, ListedPacks, Blobs, ChosenFor;
    CleanedLists(x, s1);
    GateOnQ(x, s1, s3);
    GateAcceptsQ(s1.marks);
    hide Cleaned, Trusting;
    PassesChunks(x.Broken(), s1, 2, {Q}, {Q}, s3);
  }

  lemma DecisionOnQ(x: Culprit, s: State, plan: Plan)
    requires s == Cleaned(x, 30, Trusting(Verified, {(X, P)}, {DIR}, 26)) && plan == PlanOf(s, {})
    ensures plan.toDelete == map[PackObj(Q) := 20] && plan.toUnmark == {} && plan.referenced == {}
    ensures plan.phantoms == {} && plan.blobs == {x.Misleading(), Q_BLOB, CleanBlob(x)} && IndexedIn(plan.blobs) == {Q}
  {
    hide IndexedIn;
    CleanedLists(x, s);
  }

  lemma PlanForQ(x: Culprit, s: State, plan: Plan)
    requires s == Cleaned(x, 30, Trusting(Verified, {(X, P)}, {DIR}, 26)) && plan == PlanOf(s, {})
    ensures plan.toDelete == map[PackObj(Q) := 20] && plan.toUnmark == {} && plan.referenced == {}
    ensures NeedsRewrite(plan, {}) && NewIndex(plan, {}, 3) == EmptyBlob(x)
    ensures FirstDeleting(plan) == Deleting({PackObj(Q)}, {}, {}, {})
  {
    hide Cleaned, Decide, IndexedIn, EffectiveOf;
    DecisionOnQ(x, s, plan);
    assert DeletedPacks(plan) == {Q};
    assert plan.toDelete.Keys == {PackObj(Q)};
  }

  /** A later prune deletes `Q`, before the commit and within its margin. */
  lemma LosesQ(x: Culprit, s: State, s': State)
    requires s == Cleaned(x, 30, Trusting(Verified, {(X, P)}, {DIR}, 26))
    requires s' == s.(objs := s.objs[IndexObj(EmptyBlob(x)) := 30] - {PackObj(Q)}, used := s.used + {IndexObj(EmptyBlob(x))})
    ensures Reachable(x.Broken(), CFG, s')
  {
    hide Reachable, PlanOf, NeedsRewrite, NewIndex;
    var e := x.Broken();
    GateTrustsQ(x, s);
    var q, plan := PackObj(Q), PlanOf(s, {});
    PlanForQ(x, s, plan);
    Plans(e, s, {});
    var s1 := s.(objs := s.objs[IndexObj(EmptyBlob(x)) := 30], used := s.used + {IndexObj(EmptyBlob(x))});
    WritesIndex(e, s, plan, 3, At(s1, plan, FirstDeleting(plan)));
    Clears(e, s1, plan, q, {});
    Deletes(e, s1, plan, q, {}, s');
  }

  lemma NoPacksIsNotIntact(s: State)
    requires s.snaps == map[0 := {DIR}] && forall p :: PackObj(p) !in s.objs
    ensures !Intact(s)
  {
    assert 0 in s.snaps && DIR in s.snaps[0] && DIR in Reach(DIR);
    assert DIR in LiveTrees(s.snaps) && X in DIR.chunks;
    assert !ChunkStored(s, X);
  }

  /** An index entry for a pack that is gone costs a snapshot: a backup reuses the chunk from it, prune drops the
      phantom, the gate accepts the chunk for the sake of a second pack whose mark expires within the margin, and
      that pack goes before the commit. */
  lemma PhantomsCostSnapshots(x: Culprit)
    ensures exists s :: Reachable(x.Broken(), CFG, s) && !Intact(s)
  {
    hide Reachable, Intact;
    var s := Cleaned(x, 30, Trusting(Verified, {(X, P)}, {DIR}, 26));
    var s1 := s.(objs := s.objs[IndexObj(EmptyBlob(x)) := 30] - {PackObj(Q)}, used := s.used + {IndexObj(EmptyBlob(x))});
    LosesQ(x, s, s1);
    var s2 := s1.(snaps := map[0 := {DIR}], backups := s1.backups - {2});
    Commits(x.Broken(), s1, 2, {DIR}, s2);
    NoPacksIsNotIntact(s2);
  }

  /** One backup that takes longer than the grace endangers another one that does not. */
  lemma GraceMustCoverBackups()
    ensures exists s :: Reachable(Grace, CFG, s) && !Intact(s)
  {
    hide Reachable, Intact;
    PhantomsCostSnapshots(LateBackup);
  }

  /** So does a rebuild of the index that overlaps a prune. */
  lemma RebuildMustBeApart()
    ensures exists s :: Reachable(Apart, CFG, s) && !Intact(s)
  {
    hide Reachable, Intact;
    PhantomsCostSnapshots(RebuildBeside);
  }
}
