/** Two whole passes of prune over a repository with one stray pack: what GcProgress speaks of does happen. */
module GcTwoPasses {
  import opened Objects
  import opened ChunkTable
  import opened GcMachine
  import opened GcIndexHistory
  import opened GcInvariant
  import opened GcProgress

  const CFG: Config := Config(10, 10)

  /** A pack that a broken backup left behind: no index lists it. */
  const STRAY: Pack := Pack(0, {})
  const WHAT: Obj := PackObj(STRAY)

  const ALL_KINDS: set<Kind> := {Packs, Trees, Indexes}

  /** The first pass begins at 100 and marks the pack, the second at 110 and deletes it. */
  ghost function Store(now: Time, stored: bool, marked: bool, p: Prune): State {
    State(now, if stored then map[WHAT := 0] else map[], map[], if marked then map[WHAT := 100] else map[],
          map[], {WHAT}, map[], map[], p)
  }

  ghost function Walking(now: Time, listed: map<Obj, Time>, kinds: set<Kind>): Prune {
    Walked(now, {}, {}, {}, listed, kinds)
  }

  ghost function Decided(now: Time, toDelete: map<Obj, Time>, toMark: set<Obj>): Plan {
    Plan(now, {}, {}, {}, {}, {}, toDelete, {}, toMark)
  }

  /** `run` leads from `s` to `t`, and is the rest of a calm pass that does not spare the pack. */
  ghost predicate Leads(s: State, run: seq<Action>, t: State) {
    && Runs(CFG, s, run) && Promised(CFG, s, run) && After(CFG, s, run) == t
    && forall a | a in run :: Calm(a, WHAT) && !a.PLoad? && (a.PDecide? ==> WHAT !in a.blocked)
  }

  lemma Arrived(s: State)
    ensures Leads(s, [], s)
  {
  }

  lemma First(s: State, a: Action, s': State, rest: seq<Action>, t: State)
    requires Enabled(CFG, s, a) && Environment(CFG, s, a) && s' == Apply(CFG, s, a) && Leads(s', rest, t)
    requires Calm(a, WHAT) && !a.PLoad? && (a.PDecide? ==> WHAT !in a.blocked)
    ensures Leads(s, [a] + rest, t)
  {
    hide Enabled, Apply, Environment, Calm;
    assert ([a] + rest)[1..] == rest;
  }

  /** A step of prune other than the DELETE. */
  lemma Steps(s: State, a: Action, s': State, rest: seq<Action>, t: State)
    requires OfPrune(a) && EnabledPrune(CFG, s, a) && s' == ApplyPrune(CFG, s, a) && Leads(s', rest, t)
    requires Calm(a, WHAT) && !a.PLoad? && !a.PDelete? && (a.PDecide? ==> WHAT !in a.blocked)
    ensures Leads(s, [a] + rest, t)
  {
    hide EnabledPrune, ApplyPrune, EnabledBackup, ApplyBackup, EnabledRebuild, ApplyRebuild, Leads, Calm;
    First(s, a, s', rest, t);
  }

  /** What is listed once the prefix `kind` is. */
  ghost function And(kind: Kind, listed: map<Obj, Time>): map<Obj, Time> {
    if kind == Packs then map[WHAT := 0] else listed
  }

  lemma Lists(now: Time, marked: bool, kind: Kind, listed: map<Obj, Time>, kinds: set<Kind>, rest: seq<Action>, t: State)
    requires kind !in kinds && (forall o | o in listed :: o == WHAT && listed[o] == 0)
    requires Leads(Store(now, true, marked, Walking(now, And(kind, listed), kinds + {kind})), rest, t)
    ensures Leads(Store(now, true, marked, Walking(now, listed, kinds)), [PList(kind)] + rest, t)
  {
    hide Leads;
    var s := Store(now, true, marked, Walking(now, listed, kinds));
    var found := map o | o in s.objs && KindOf(o) == kind :: s.objs[o];
    FoundAnd(kind, s.objs, listed, found);
    Steps(s, PList(kind), Store(now, true, marked, Walking(now, And(kind, listed), kinds + {kind})), rest, t);
  }

  lemma FoundAnd(kind: Kind, objs: map<Obj, Time>, listed: map<Obj, Time>, found: map<Obj, Time>)
    requires objs == map[WHAT := 0] && (forall o | o in listed :: o == WHAT && listed[o] == 0)
    requires found == map o | o in objs && KindOf(o) == kind :: objs[o]
    ensures listed + found == And(kind, listed)
  {
  }

  lemma Walks(now: Time, marked: bool, rest: seq<Action>, t: State)
    requires Leads(Store(now, true, marked, Walking(now, map[], {})), rest, t)
    ensures Leads(Store(now, true, marked, Loaded(now, {})), [PWalk] + rest, t)
  {
    hide Leads;
    var s := Store(now, true, marked, Loaded(now, {}));
    assert LiveTrees(s.snaps) == {} && ChunksOf({}) == {};
    Steps(s, PWalk, Store(now, true, marked, Walking(now, map[], {})), rest, t);
  }

  ghost function ThePlan(now: Time, marked: bool): Plan {
    Decided(now, if marked then map[WHAT := 100] else map[], if marked then {} else {WHAT})
  }

  lemma Decision(now: Time, marked: bool)
    requires now == if marked then 110 else 100
    ensures Decide(CFG, Store(now, true, marked, Walking(now, map[WHAT := 0], ALL_KINDS)), {}, {}) == ThePlan(now, marked)
  {
    hide NeededPacks, EnabledPrune, ApplyPrune, IndexedIn;
    var s := Store(now, true, marked, Walking(now, map[WHAT := 0], ALL_KINDS));
    NothingNeeded(s);
    var plan := Decide(CFG, s, {}, {});
    assert !Live(s.prune, {}, WHAT);
    if marked {
      assert WHAT in plan.toDelete && forall o | o in plan.toDelete :: o == WHAT;
      assert plan.toDelete == map[WHAT := 100];
      assert plan.toMark == {};
    } else {
      assert plan.toDelete == map[];
      assert WHAT in plan.toMark && forall o | o in plan.toMark :: o == WHAT;
    }
  }

  lemma NothingNeeded(s: State)
    requires s.prune.Walked? && s.prune.blobs == {} && s.prune.referenced == {}
    ensures Needed(s) == {} && IndexedIn({}) == {}
  {
  }

  lemma Decides(now: Time, marked: bool, rest: seq<Action>, t: State)
    requires now == if marked then 110 else 100
    requires Leads(Store(now, true, marked, Running(ThePlan(now, marked), Repacking({}))), rest, t)
    ensures Leads(Store(now, true, marked, Walking(now, map[WHAT := 0], ALL_KINDS)), [PDecide({}, {})] + rest, t)
  {
    hide Leads, Decide, NeededPacks;
    var s := Store(now, true, marked, Walking(now, map[WHAT := 0], ALL_KINDS));
    Decision(now, marked);
    Steps(s, PDecide({}, {}), s.(prune := Running(ThePlan(now, marked), Repacking({}))), rest, t);
  }

  /** From the loaded index to the decision. */
  lemma Looks(now: Time, marked: bool, rest: seq<Action>, t: State)
    requires now == if marked then 110 else 100
    requires Leads(Store(now, true, marked, Running(ThePlan(now, marked), Repacking({}))), rest, t)
    ensures Leads(Store(now, true, marked, Loaded(now, {})),
                  [PWalk] + ([PList(Packs)] + ([PList(Trees)] + ([PList(Indexes)] + ([PDecide({}, {})] + rest)))), t)
  {
    hide Leads;
    var listed := map[WHAT := 0];
    var r4 := [PDecide({}, {})] + rest;
    var r3 := [PList(Indexes)] + r4;
    var r2 := [PList(Trees)] + r3;
    Decides(now, marked, rest, t);
    assert {Packs, Trees} + {Indexes} == ALL_KINDS && {Packs} + {Trees} == {Packs, Trees} && {} + {Packs} == {Packs};
    Lists(now, marked, Indexes, listed, {Packs, Trees}, r4, t);
    Lists(now, marked, Trees, listed, {Packs}, r3, t);
    Lists(now, marked, Packs, map[], {}, r2, t);
    Walks(now, marked, [PList(Packs)] + r2, t);
  }

  lemma Keeps(now: Time, marked: bool, toDelete: map<Obj, Time>, toMark: set<Obj>, rest: seq<Action>, t: State)
    requires toDelete.Keys <= {WHAT}
    requires Leads(Store(now, true, marked, Running(Decided(now, toDelete, toMark), Deleting(toDelete.Keys, {}, {}, {}))), rest, t)
    ensures Leads(Store(now, true, marked, Running(Decided(now, toDelete, toMark), Repacking({}))), [PKeepIndex({})] + rest, t)
  {
    hide Leads;
    var plan := Decided(now, toDelete, toMark);
    var s := Store(now, true, marked, Running(plan, Repacking({})));
    assert EffectiveOf({}) == {} && DeletedPacks(plan) == {};
    assert toMark - (set p | p in {} :: PackObj(p)) == toMark;
    assert WithoutFailed(plan, {}) == plan;
    Steps(s, PKeepIndex({}), s.(prune := Running(plan, Deleting(toDelete.Keys, {}, {}, {}))), rest, t);
  }

  lemma Ends(now: Time, stored: bool, marked: bool, plan: Plan)
    ensures Leads(Store(now, stored, marked, Running(plan, Marking({}))), [PNext] + ([PNext] + []),
                  Store(now, stored, marked, Idle))
  {
    hide Leads;
    var t := Store(now, stored, marked, Idle);
    Arrived(t);
    var s1 := Store(now, stored, marked, Running(plan, Sweeping({})));
    Steps(s1, PNext, t, [], t);
    Steps(Store(now, stored, marked, Running(plan, Marking({}))), PNext, s1, [PNext] + [], t);
  }

  const FIRST_END: seq<Action> := [PNext] + ([PNext] + ([PMark(WHAT)] + ([PNext] + ([PNext] + []))))

  lemma Marks()
    ensures var plan := Decided(100, map[], {WHAT});
            Leads(Store(100, true, false, Running(plan, Deleting({}, {}, {}, {}))), FIRST_END, Store(100, true, true, Idle))
  {
    hide Leads;
    var plan := Decided(100, map[], {WHAT});
    var t := Store(100, true, true, Idle);
    Ends(100, true, true, plan);
    var s2 := Store(100, true, false, Running(plan, Marking({WHAT})));
    var s3 := Store(100, true, true, Running(plan, Marking({})));
    assert {WHAT} - {WHAT} == {} && s2.marks[WHAT := 100] == s3.marks;
    Steps(s2, PMark(WHAT), s3, [PNext] + ([PNext] + []), t);
    var r2 := [PMark(WHAT)] + ([PNext] + ([PNext] + []));
    var s1 := Store(100, true, false, Running(plan, Unmarking({})));
    Steps(s1, PNext, s2, r2, t);
    Steps(Store(100, true, false, Running(plan, Deleting({}, {}, {}, {}))), PNext, s1, [PNext] + r2, t);
  }

  lemma Deleted(plan: Plan, rest: seq<Action>, t: State)
    requires plan == Decided(110, map[WHAT := 100], {})
    requires Leads(Store(110, false, true, Running(plan, Deleting({}, {}, {}, {WHAT}))), rest, t)
    ensures Leads(Store(110, true, true, Running(plan, Deleting({}, {WHAT}, {}, {}))), [PDelete(WHAT)] + rest, t)
  {
    hide Leads, EnabledBackup, ApplyBackup, EnabledRebuild, ApplyRebuild;
    var s1 := Store(110, true, true, Running(plan, Deleting({}, {WHAT}, {}, {})));
    var s2 := Store(110, false, true, Running(plan, Deleting({}, {}, {}, {WHAT})));
    assert {WHAT} - {WHAT} == {} && {} + {WHAT} == {WHAT} && s1.objs - {WHAT} == s2.objs;
    First(s1, PDelete(WHAT), s2, rest, t);
  }

  lemma Deletes(rest: seq<Action>, t: State)
    requires var plan := Decided(110, map[WHAT := 100], {});
             Leads(Store(110, false, true, Running(plan, Deleting({}, {}, {}, {WHAT}))), rest, t)
    ensures var plan := Decided(110, map[WHAT := 100], {});
            Leads(Store(110, true, true, Running(plan, Deleting({WHAT}, {}, {}, {}))),
                  [PCheck(WHAT)] + ([PDelete(WHAT)] + rest), t)
  {
    hide Leads;
    var plan := Decided(110, map[WHAT := 100], {});
    var s1 := Store(110, true, true, Running(plan, Deleting({}, {WHAT}, {}, {})));
    Deleted(plan, rest, t);
    assert {WHAT} - {WHAT} == {} && {} + {WHAT} == {WHAT};
    Steps(Store(110, true, true, Running(plan, Deleting({WHAT}, {}, {}, {}))), PCheck(WHAT), s1, [PDelete(WHAT)] + rest, t);
  }

  lemma Unmarks()
    ensures var plan := Decided(110, map[WHAT := 100], {});
            Leads(Store(110, false, true, Running(plan, Deleting({}, {}, {}, {WHAT}))),
                  [PNext] + ([PUnmark(WHAT)] + ([PNext] + ([PNext] + ([PNext] + [])))), Store(110, false, false, Idle))
  {
    hide Leads;
    var plan := Decided(110, map[WHAT := 100], {});
    var t := Store(110, false, false, Idle);
    var s2 := Store(110, false, true, Running(plan, Unmarking({WHAT})));
    var s3 := Store(110, false, false, Running(plan, Unmarking({})));
    var s4 := Store(110, false, false, Running(plan, Marking({})));
    Ends(110, false, false, plan);
    Steps(s3, PNext, s4, [PNext] + ([PNext] + []), t);
    assert {WHAT} - {WHAT} == {} && s2.marks - {WHAT} == s3.marks;
    Steps(s2, PUnmark(WHAT), s3, [PNext] + ([PNext] + ([PNext] + [])), t);
    Steps(Store(110, false, true, Running(plan, Deleting({}, {}, {}, {WHAT}))), PNext, s2,
          [PUnmark(WHAT)] + ([PNext] + ([PNext] + ([PNext] + []))), t);
  }

  /** A pass: load, and all the rest. */
  lemma WholePass(s: State, s': State, rest: seq<Action>, t: State)
    requires s.prune == Idle && s.rebuilds == map[] && s' == s.(prune := Loaded(s.now, Blobs(s.objs)))
    requires Leads(s', rest, t) && t.prune == Idle
    ensures Pass(CFG, s, [PLoad] + rest, WHAT) && After(CFG, s, [PLoad] + rest) == t
    ensures forall a | a in [PLoad] + rest && a.PDecide? :: WHAT !in a.blocked
  {
    hide EnabledBackup, ApplyBackup, EnabledRebuild, ApplyRebuild;
    assert ([PLoad] + rest)[1..] == rest;
  }

  lemma Resting()
    ensures Pause(CFG, Store(100, true, true, Idle), [Tick(10)], WHAT)
    ensures After(CFG, Store(100, true, true, Idle), [Tick(10)]) == Store(110, true, true, Idle)
  {
    assert [Tick(10)][1..] == [];
  }

  lemma FirstRest() returns (run: seq<Action>)
    ensures Leads(Store(100, true, false, Loaded(100, {})), run, Store(100, true, true, Idle))
  {
    hide Leads;
    var t := Store(100, true, true, Idle);
    var plan := Decided(100, map[], {WHAT});
    Marks();
    assert plan.toDelete.Keys == {};
    Keeps(100, false, map[], {WHAT}, FIRST_END, t);
    var rest := [PKeepIndex({})] + FIRST_END;
    Looks(100, false, rest, t);
    run := [PWalk] + ([PList(Packs)] + ([PList(Trees)] + ([PList(Indexes)] + ([PDecide({}, {})] + rest))));
  }

  lemma SecondRest() returns (run: seq<Action>)
    ensures Leads(Store(110, true, true, Loaded(110, {})), run, Store(110, false, false, Idle))
  {
    hide Leads;
    var t := Store(110, false, false, Idle);
    var plan := Decided(110, map[WHAT := 100], {});
    var end := [PNext] + ([PUnmark(WHAT)] + ([PNext] + ([PNext] + ([PNext] + []))));
    Unmarks();
    Deletes(end, t);
    assert plan.toDelete.Keys == {WHAT};
    Keeps(110, true, map[WHAT := 100], {}, [PCheck(WHAT)] + ([PDelete(WHAT)] + end), t);
    var rest := [PKeepIndex({})] + ([PCheck(WHAT)] + ([PDelete(WHAT)] + end));
    Looks(110, true, rest, t);
    run := [PWalk] + ([PList(Packs)] + ([PList(Trees)] + ([PList(Indexes)] + ([PDecide({}, {})] + rest))));
  }

  lemma StrayIsUnneeded()
    ensures var s := Store(100, true, false, Idle); Inv(CFG, s) && Unneeded(s, WHAT) && Ripe(CFG, s, WHAT)
  {
    var s := Store(100, true, false, Idle);
    assert forall b :: IndexObj(b) !in s.objs;
    assert LiveTrees(s.snaps) == {} && ChunksOf({}) == {};
  }

  /** Two passes as `GcProgress.TwoPassesDelete` asks for them, from a state it allows. */
  lemma TwoPassesHappen()
    ensures exists s, first, pause, second ::
              CFG.Valid() && Inv(CFG, s) && Unneeded(s, WHAT) && Ripe(CFG, s, WHAT)
              && TwoPasses(CFG, s, first, pause, second, WHAT)
  {
    hide Leads, Pass, Pause, Inv, Unneeded, Ripe, Runs, After;
    var s := Store(100, true, false, Idle);
    var rest := FirstRest();
    var first := [PLoad] + rest;
    assert Blobs(s.objs) == {};
    WholePass(s, Store(100, true, false, Loaded(100, {})), rest, Store(100, true, true, Idle));
    var s2 := Store(110, true, true, Idle);
    var rest2 := SecondRest();
    var second := [PLoad] + rest2;
    assert Blobs(s2.objs) == {};
    WholePass(s2, Store(110, true, true, Loaded(110, {})), rest2, Store(110, false, false, Idle));
    StrayIsUnneeded();
    Resting();
    assert TwoPasses(CFG, s, first, [Tick(10)], second, WHAT);
  }
}
