/** The walk over everything the snapshots reach (reach.rs). `check` and `prune` share it; prune
  refuses to mark or delete anything when it reports an error. */
module Reachability {
  import opened Limits
  import opened Wrappers

  type Id = nat
  type ChunkId = nat

  /** `content_type::DIRECT` */
  const DIRECT: nat := 0

  datatype Entry =
    /** The all-zero subtree id is `None`. */
    | Dir(subtree: Option<Id>)
    | File(content: nat, chunks: seq<ChunkId>)
    | Other

  /** One segment of a directory. */
  datatype Tree = Tree(entries: seq<Entry>, prev: Option<Id>)

  datatype Error =
    | UnreadableSnapshot(key: nat)
    | Unreadable(id: Id)
    | TooDeep(id: Id)
    | MissingChunk(id: Id, chunk: ChunkId)
    | BadList(id: Id)

  /** What the walk can read: the trees that decode and validate, the chunks the index knows, and the
      chunk list behind the chunks of an indirect file. Trees may link to each other in any way. */
  datatype Repo = Repo(trees: map<Id, Tree>, index: set<ChunkId>, resolve: (seq<ChunkId>, nat) -> Option<seq<ChunkId>>)

  // ---------- what there is to reach ----------

  predicate LinksTo(t: Tree, id: Id) {
    t.prev == Some(id) || Dir(Some(id)) in t.entries
  }

  /** A set that has, with a readable tree, everything the tree links to. */
  ghost predicate Closed(repo: Repo, ids: set<Id>) {
    forall t, l | t in ids && t in repo.trees && LinksTo(repo.trees[t], l) :: l in ids
  }

  /** The least closed set that contains the roots. */
  ghost predicate IsReach(repo: Repo, roots: set<Id>, ids: set<Id>) {
    && roots <= ids && Closed(repo, ids)
    && forall s: set<Id> | roots <= s && Closed(repo, s) :: ids <= s
  }

  predicate Uses(repo: Repo, e: Entry, c: ChunkId) {
    && e.File?
    && (c in e.chunks
        || (e.content != DIRECT && repo.resolve(e.chunks, e.content).Some?
            && c in repo.resolve(e.chunks, e.content).value))
  }

  ghost predicate UsedBy(repo: Repo, ids: set<Id>, c: ChunkId) {
    exists t, e :: t in ids && t in repo.trees && e in repo.trees[t].entries && Uses(repo, e, c)
  }

  /** Every chunk of the file is in the index, and its chunk list, if it has one, can be read. */
  ghost predicate Whole(repo: Repo, e: Entry) {
    e.File? ==>
      && (forall c | Uses(repo, e, c) :: c in repo.index)
      && (e.content != DIRECT ==> repo.resolve(e.chunks, e.content).Some?)
  }

  // ---------- how deep directories are nested ----------

  /** A way to a tree: from a root, down into directories and back along the segments of one. */
  datatype Way = FromRoot(id: Id) | Into(above: Way, id: Id) | Back(above: Way, id: Id) {

    /** How many directories lie in each other here; the segments of a directory are not counted. */
    function Nesting(): nat {
      match this
      case FromRoot(_) => 1
      case Into(above, _) => above.Nesting() + 1
      case Back(above, _) => above.Nesting()
    }

    function Trees(): set<Id> {
      match this
      case FromRoot(id) => {id}
      case Into(above, id) => above.Trees() + {id}
      case Back(above, id) => above.Trees() + {id}
    }

    /** The way is there, and leads through no tree twice. */
    ghost predicate Leads(repo: Repo, roots: set<Id>) {
      match this
      case FromRoot(id) => id in roots
      case Into(above, id) =>
        && above.Leads(repo, roots) && id !in above.Trees()
        && above.id in repo.trees && Dir(Some(id)) in repo.trees[above.id].entries
      case Back(above, id) =>
        && above.Leads(repo, roots) && id !in above.Trees()
        && above.id in repo.trees && repo.trees[above.id].prev == Some(id)
    }
  }

  /** Some tree that is nested as deep as a reader goes has a directory in it. */
  ghost predicate NestedTooDeep(repo: Repo, roots: set<Id>, id: Id) {
    && id in repo.trees && (exists s :: Dir(Some(s)) in repo.trees[id].entries)
    && exists way: Way :: way.Leads(repo, roots) && way.id == id && way.Nesting() == MAX_TREE_DEPTH
  }

  /** The walk may start out on `way`: it has come through everything before its last tree. */
  ghost predicate Open(repo: Repo, roots: set<Id>, live: set<Id>, way: Way) {
    match way
    case FromRoot(id) => id in roots
    case Into(above, id) =>
      && above.Leads(repo, roots) && above.Trees() <= live
      && above.id in repo.trees && Dir(Some(id)) in repo.trees[above.id].entries
    case Back(above, id) =>
      && above.Leads(repo, roots) && above.Trees() <= live
      && above.id in repo.trees && repo.trees[above.id].prev == Some(id)
  }

  /** The error is a fault of a tree the walk reached, or of a snapshot. */
  ghost predicate Real(repo: Repo, snapshots: seq<Option<seq<Id>>>, live: set<Id>, e: Error) {
    match e
    case UnreadableSnapshot(k) => k < |snapshots| && snapshots[k].None?
    case Unreadable(id) => id in live && id !in repo.trees
    case TooDeep(id) => id in live && NestedTooDeep(repo, RootsOf(snapshots), id)
    case MissingChunk(id, c) => id in live && id in repo.trees && c !in repo.index && UsedBy(repo, {id}, c)
    case BadList(id) => id in live && id in repo.trees && exists f :: f in repo.trees[id].entries && !Whole(repo, f)
  }

  // ---------- what a walk has dealt with ----------

  /** The chunks are recorded, and each that the index does not know is reported. */
  ghost predicate ChunksDone(repo: Repo, id: Id, cs: seq<ChunkId>, referenced: seq<ChunkId>, errors: seq<Error>) {
    forall c | c in cs :: c in referenced && (c in repo.index || MissingChunk(id, c) in errors)
  }

  /** The list behind the chunks of a file: recorded, and read or reported. */
  ghost predicate ListDone(repo: Repo, id: Id, e: Entry, referenced: seq<ChunkId>, errors: seq<Error>)
    requires e.File?
  {
    && (forall c | c in e.chunks :: c in referenced)
    && if exists c :: c in e.chunks && c !in repo.index
       then exists c :: c in e.chunks && c !in repo.index && MissingChunk(id, c) in errors
       else match repo.resolve(e.chunks, e.content)
            case None => BadList(id) in errors
            case Some(data) => ChunksDone(repo, id, data, referenced, errors)
  }

  /** The entry of the tree `id` has been dealt with: followed or recorded, or what is wrong with it reported. */
  ghost predicate EntryDone(repo: Repo, id: Id, e: Entry, live: set<Id>, referenced: seq<ChunkId>, errors: seq<Error>) {
    match e
    case Dir(Some(s)) => s in live || TooDeep(id) in errors
    case File(content, chunks) =>
      if content == DIRECT then ChunksDone(repo, id, chunks, referenced, errors) else ListDone(repo, id, e, referenced, errors)
    case _ => true
  }

  /** All there is to a tree has been dealt with, but for its `prev` segment if that is `pending`. */
  ghost predicate TreeDone(repo: Repo, id: Id, pending: Option<Id>, live: set<Id>, referenced: seq<ChunkId>, errors: seq<Error>) {
    if id !in repo.trees then Unreadable(id) in errors
    else
      && (repo.trees[id].prev.Some? ==> repo.trees[id].prev.value in live || repo.trees[id].prev == pending)
      && forall e | e in repo.trees[id].entries :: EntryDone(repo, id, e, live, referenced, errors)
  }

  ghost predicate AllDone(repo: Repo, ids: set<Id>, pending: Option<Id>, live: set<Id>, referenced: seq<ChunkId>, errors: seq<Error>) {
    forall id | id in ids :: TreeDone(repo, id, pending, live, referenced, errors)
  }

  lemma EntryStaysDone(repo: Repo, id: Id, e: Entry, live: set<Id>, referenced: seq<ChunkId>, errors: seq<Error>,
                       live': set<Id>, referenced': seq<ChunkId>, errors': seq<Error>)
    requires EntryDone(repo, id, e, live, referenced, errors)
    requires live <= live' && referenced <= referenced' && errors <= errors'
    ensures EntryDone(repo, id, e, live', referenced', errors')
  {
  }

  lemma DoneStaysDone(repo: Repo, ids: set<Id>, pending: Option<Id>, live: set<Id>, referenced: seq<ChunkId>, errors: seq<Error>,
                      live': set<Id>, referenced': seq<ChunkId>, errors': seq<Error>)
    requires AllDone(repo, ids, pending, live, referenced, errors)
    requires live <= live' && referenced <= referenced' && errors <= errors'
    ensures AllDone(repo, ids, pending, live', referenced', errors')
  {
    hide EntryDone;
    forall id | id in ids ensures TreeDone(repo, id, pending, live', referenced', errors') {
      assert TreeDone(repo, id, pending, live, referenced, errors);
      if id in repo.trees {
        forall e | e in repo.trees[id].entries ensures EntryDone(repo, id, e, live', referenced', errors') {
          EntryStaysDone(repo, id, e, live, referenced, errors, live', referenced', errors');
        }
      }
    }
  }

  /** What a nested walk dealt with joins what was dealt with before it. */
  lemma JoinDone(repo: Repo, before: set<Id>, mid: set<Id>, live: set<Id>, referenced: seq<ChunkId>, errors: seq<Error>,
                 referenced': seq<ChunkId>, errors': seq<Error>)
    requires AllDone(repo, mid - before, None, mid, referenced, errors)
    requires mid <= live && referenced <= referenced' && errors <= errors'
    requires AllDone(repo, live - mid, None, live, referenced', errors')
    ensures AllDone(repo, live - before, None, live, referenced', errors')
  {
    hide TreeDone;
    DoneStaysDone(repo, mid - before, None, mid, referenced, errors, live, referenced', errors');
  }

  /** One more segment: what waited for it is done, and it waits for its own `prev`. */
  lemma NextDone(repo: Repo, before: set<Id>, reached: set<Id>, id: Id, live: set<Id>, referenced: seq<ChunkId>,
                 errors: seq<Error>, referenced': seq<ChunkId>, errors': seq<Error>)
    requires AllDone(repo, reached - before, Some(id), reached, referenced, errors)
    requires referenced <= referenced' && errors <= errors'
    requires reached + {id} <= live && id in repo.trees
    requires AllDone(repo, live - (reached + {id}), None, live, referenced', errors')
    requires forall e | e in repo.trees[id].entries :: EntryDone(repo, id, e, live, referenced', errors')
    ensures AllDone(repo, live - before, repo.trees[id].prev, live, referenced', errors')
  {
    hide EntryDone;
    DoneStaysDone(repo, reached - before, Some(id), reached, referenced, errors, live, referenced', errors');
    forall t | t in live - before ensures TreeDone(repo, t, repo.trees[id].prev, live, referenced', errors') {
      if t != id && t !in reached {
        assert t in live - (reached + {id});
        assert TreeDone(repo, t, None, live, referenced', errors');
      } else if t != id {
        assert t in reached - before;
        assert TreeDone(repo, t, Some(id), live, referenced', errors');
      }
    }
  }

  /** The walk went only where the links of `from` lead. */
  ghost predicate NoFurther(repo: Repo, from: set<Id>, live: set<Id>) {
    forall s: set<Id> | from <= s && Closed(repo, s) :: live <= s
  }

  ghost predicate OnlyUsed(repo: Repo, referenced: seq<ChunkId>, live: set<Id>) {
    forall c | c in referenced :: UsedBy(repo, live, c)
  }

  ghost predicate AllReal(repo: Repo, snapshots: seq<Option<seq<Id>>>, live: set<Id>, errors: seq<Error>) {
    forall e | e in errors :: Real(repo, snapshots, live, e)
  }

  lemma RealStays(repo: Repo, snapshots: seq<Option<seq<Id>>>, live: set<Id>, live': set<Id>, errors: seq<Error>,
                  referenced: seq<ChunkId>)
    requires live <= live'
    ensures AllReal(repo, snapshots, live, errors) ==> AllReal(repo, snapshots, live', errors)
    ensures OnlyUsed(repo, referenced, live) ==> OnlyUsed(repo, referenced, live')
  {
    forall c | UsedBy(repo, live, c) ensures UsedBy(repo, live', c) {
    }
  }

  class Walk {
    const repo: Repo
    var live: set<Id>
    var referenced: seq<ChunkId>
    var errors: seq<Error>

    constructor (repo: Repo)
      ensures this.repo == repo && live == {} && referenced == [] && errors == []
    {
      this.repo, live, referenced, errors := repo, {}, [], [];
    }

    ghost predicate Valid(snapshots: seq<Option<seq<Id>>>)
      reads this
    {
      OnlyUsed(repo, referenced, live) && AllReal(repo, snapshots, live, errors)
    }

    /** The data chunks of a file; `None` if an error has been recorded instead. */
    method DataOf(id: Id, e: Entry, ghost snapshots: seq<Option<seq<Id>>>) returns (data: Option<seq<ChunkId>>)
      requires Valid(snapshots) && id in live && id in repo.trees && e in repo.trees[id].entries && e.File?
      modifies `referenced, `errors
      ensures Valid(snapshots) && old(errors) <= errors && old(referenced) <= referenced
      ensures data.None? ==> EntryDone(repo, id, e, live, referenced, errors)
      ensures data.Some? ==> errors == old(errors)
      ensures data.Some? && e.content == DIRECT ==> data.value == e.chunks
      ensures data.Some? && e.content != DIRECT ==>
                && Some(data.value) == repo.resolve(e.chunks, e.content)
                && forall c | c in e.chunks :: c in repo.index && c in referenced
    {
      hide Whole, UsedBy;
      if e.content == DIRECT {
        return Some(e.chunks);
      }
      forall c | c in e.chunks ensures UsedBy(repo, {id}, c) && UsedBy(repo, live, c) {
        UsedHere(repo, id, e, c, live);
      }
      referenced := referenced + e.chunks;
      var missing := FirstMissing(repo.index, e.chunks);
      if missing.Some? {
        errors := errors + [MissingChunk(id, missing.value)];
        assert MissingChunk(id, missing.value) in errors;
        return None;
      }
      data := repo.resolve(e.chunks, e.content);
      if data.None? {
        Unresolved(repo, e);
        errors := errors + [BadList(id)];
        assert BadList(id) in errors;
      }
    }

    /** The chunks of one file. */
    method VisitFile(id: Id, e: Entry, ghost snapshots: seq<Option<seq<Id>>>)
      requires Valid(snapshots) && id in live && id in repo.trees && e in repo.trees[id].entries && e.File?
      modifies `referenced, `errors
      ensures Valid(snapshots) && old(errors) <= errors && old(referenced) <= referenced
      ensures EntryDone(repo, id, e, live, referenced, errors)
    {
      hide UsedBy, Whole;
      var found := DataOf(id, e, snapshots);
      if found.None? {
        return;
      }
      var data := found.value;
      forall c | c in data ensures UsedBy(repo, {id}, c) && UsedBy(repo, live, c) {
        UsedHere(repo, id, e, c, live);
      }
      referenced := referenced + data;
      ghost var all := referenced;
      for i := 0 to |data|
        invariant referenced == all
        invariant old(errors) <= errors && Valid(snapshots)
        invariant forall k | 0 <= k < i :: data[k] in repo.index || MissingChunk(id, data[k]) in errors
      {
        if data[i] !in repo.index {
          assert data[i] in data;
          errors := errors + [MissingChunk(id, data[i])];
          assert MissingChunk(id, data[i]) in errors;
        }
      }
      assert ChunksDone(repo, id, data, referenced, errors);
    }

    ghost predicate Dealt(ids: set<Id>, pending: Option<Id>)
      reads this
    {
      AllDone(repo, ids, pending, live, referenced, errors)
    }

    /** One tree and the segments before it. The nesting of directories is limited; the segments of
        one directory are not counted. The trees may link to each other in circles. */
    method WalkTree(root: Id, depth: nat, ghost snapshots: seq<Option<seq<Id>>>, ghost way: Way)
      requires Valid(snapshots) && 1 <= depth <= MAX_TREE_DEPTH
      requires way.id == root && way.Nesting() == depth && Open(repo, RootsOf(snapshots), live, way)
      modifies `live, `referenced, `errors
      ensures Valid(snapshots) && old(live) <= live && old(referenced) <= referenced && old(errors) <= errors
      ensures root in live
      ensures Dealt(live - old(live), None)
      ensures NoFurther(repo, old(live) + {root}, live)
      decreases repo.trees.Keys - live, 0
    {
      hide Whole, UsedBy, AllDone, EntryDone;
      ghost var before, here := live, way;
      var id := root;
      assert Dealt({}, Some(id)) by { NothingDone(repo, Some(id), live, referenced, errors); }
      assert live - before == {};
      while true
        invariant Valid(snapshots) && before <= live && old(referenced) <= referenced && old(errors) <= errors
        invariant root in live || id == root
        invariant Dealt(live - before, Some(id))
        invariant NoFurther(repo, before + {root}, live + {id})
        invariant here.id == id && here.Nesting() == depth && Open(repo, RootsOf(snapshots), live, here)
        decreases repo.trees.Keys - live
      {
        if id in live {
          assert live + {id} == live;
          NothingPending(repo, live - before, id, live, referenced, errors);
          return;
        }
        ghost var reached, r0, e0 := live, referenced, errors;
        OpenLeads(repo, RootsOf(snapshots), live, here);
        live := live + {id};
        RealStays(repo, snapshots, reached, live, errors, referenced);
        if id !in repo.trees {
          errors := errors + [Unreadable(id)];
          UnreadableDone(repo, before, reached, id, referenced, e0, errors);
          return;
        }
        var tree := repo.trees[id];
        WalkEntries(id, tree, depth, snapshots, here);
        NextDone(repo, before, reached, id, live, r0, e0, referenced, errors);
        if tree.prev.None? {
          return;
        }
        PrevIsNoFurther(repo, before + {root}, live, id);
        id, here := tree.prev.value, Back(here, tree.prev.value);
      }
    }

    method WalkEntries(id: Id, tree: Tree, depth: nat, ghost snapshots: seq<Option<seq<Id>>>, ghost way: Way)
      requires Valid(snapshots) && 1 <= depth <= MAX_TREE_DEPTH
      requires id in live && id in repo.trees && repo.trees[id] == tree
      requires way.id == id && way.Nesting() == depth && way.Leads(repo, RootsOf(snapshots)) && way.Trees() <= live
      modifies `live, `referenced, `errors
      ensures Valid(snapshots) && old(live) <= live && old(referenced) <= referenced && old(errors) <= errors
      ensures Dealt(live - old(live), None)
      ensures forall e | e in tree.entries :: EntryDone(repo, id, e, live, referenced, errors)
      ensures NoFurther(repo, old(live), live)
      decreases repo.trees.Keys - live, 1
    {
      hide Whole, UsedBy, AllDone;
      ghost var before := live;
      assert live - before == {};
      NothingDone(repo, None, live, referenced, errors);
      for i := 0 to |tree.entries|
        invariant Valid(snapshots) && before <= live && old(referenced) <= referenced && old(errors) <= errors
        invariant Dealt(live - before, None)
        invariant forall k | 0 <= k < i :: EntryDone(repo, id, tree.entries[k], live, referenced, errors)
        invariant NoFurther(repo, before, live)
      {
        ghost var mid, r0, e0 := live, referenced, errors;
        var e := tree.entries[i];
        assert e in tree.entries;
        if e.Dir? && e.subtree.Some? {
          if depth >= MAX_TREE_DEPTH {
            assert NestedTooDeep(repo, RootsOf(snapshots), id) by { TooDeepHere(repo, RootsOf(snapshots), way, e); }
            errors := errors + [TooDeep(id)];
            assert TooDeep(id) in errors;
            DoneStaysDone(repo, live - before, None, live, r0, e0, live, r0, errors);
          } else {
            assert repo.trees.Keys - live <= repo.trees.Keys - before;
            assert e == Dir(Some(e.subtree.value));
            WalkTree(e.subtree.value, depth + 1, snapshots, Into(way, e.subtree.value));
            JoinDone(repo, before, mid, live, r0, e0, referenced, errors);
          }
        } else if e.File? {
          VisitFile(id, e, snapshots);
          DoneStaysDone(repo, live - before, None, live, r0, e0, live, referenced, errors);
        }
        forall k | 0 <= k < i ensures EntryDone(repo, id, tree.entries[k], live, referenced, errors) {
          EntryStaysDone(repo, id, tree.entries[k], mid, r0, e0, live, referenced, errors);
        }
      }
    }
  }

  /** A tree not walked yet is not on the way to it. */
  lemma OpenLeads(repo: Repo, roots: set<Id>, live: set<Id>, way: Way)
    requires Open(repo, roots, live, way) && way.id !in live
    ensures way.Leads(repo, roots) && way.Trees() <= live + {way.id}
  {
  }

  lemma TooDeepHere(repo: Repo, roots: set<Id>, way: Way, e: Entry)
    requires way.Leads(repo, roots) && way.Nesting() == MAX_TREE_DEPTH
    requires way.id in repo.trees && e in repo.trees[way.id].entries && e.Dir? && e.subtree.Some?
    ensures NestedTooDeep(repo, roots, way.id)
  {
    assert Dir(Some(e.subtree.value)) == e;
  }

  lemma NothingDone(repo: Repo, pending: Option<Id>, live: set<Id>, referenced: seq<ChunkId>, errors: seq<Error>)
    ensures AllDone(repo, {}, pending, live, referenced, errors)
  {
  }

  lemma NothingPending(repo: Repo, ids: set<Id>, id: Id, live: set<Id>, referenced: seq<ChunkId>, errors: seq<Error>)
    requires AllDone(repo, ids, Some(id), live, referenced, errors) && id in live
    ensures AllDone(repo, ids, None, live, referenced, errors)
  {
    hide EntryDone;
    forall t | t in ids ensures TreeDone(repo, t, None, live, referenced, errors) {
      assert TreeDone(repo, t, Some(id), live, referenced, errors);
    }
  }

  /** The chain ends at a segment that cannot be read. */
  lemma UnreadableDone(repo: Repo, before: set<Id>, reached: set<Id>, id: Id, referenced: seq<ChunkId>,
                       errors: seq<Error>, errors': seq<Error>)
    requires AllDone(repo, reached - before, Some(id), reached, referenced, errors) && id !in repo.trees
    requires errors' == errors + [Unreadable(id)]
    ensures AllDone(repo, reached + {id} - before, None, reached + {id}, referenced, errors')
  {
    hide EntryDone;
    var live := reached + {id};
    DoneStaysDone(repo, reached - before, Some(id), reached, referenced, errors, live, referenced, errors');
    NothingPending(repo, reached - before, id, live, referenced, errors');
    forall t | t in live - before ensures TreeDone(repo, t, None, live, referenced, errors') {
      if t != id {
        assert t in reached - before;
      } else {
        assert Unreadable(id) in errors';
      }
    }
  }

  lemma PrevIsNoFurther(repo: Repo, from: set<Id>, live: set<Id>, id: Id)
    requires NoFurther(repo, from, live) && id in live && id in repo.trees && repo.trees[id].prev.Some?
    ensures NoFurther(repo, from, live + {repo.trees[id].prev.value})
  {
    assert LinksTo(repo.trees[id], repo.trees[id].prev.value);
  }

  lemma UsedHere(repo: Repo, id: Id, e: Entry, c: ChunkId, live: set<Id>)
    requires id in live && id in repo.trees && e in repo.trees[id].entries && Uses(repo, e, c)
    ensures UsedBy(repo, {id}, c) && UsedBy(repo, live, c)
  {
    assert id in {id};
  }

  lemma Unresolved(repo: Repo, e: Entry)
    requires e.File? && e.content != DIRECT && repo.resolve(e.chunks, e.content).None?
    ensures !Whole(repo, e)
  {
  }

  method FirstMissing(index: set<ChunkId>, cs: seq<ChunkId>) returns (missing: Option<ChunkId>)
    ensures missing.None? ==> forall c | c in cs :: c in index
    ensures missing.Some? ==> missing.value in cs && missing.value !in index
  {
    for i := 0 to |cs|
      invariant forall k | 0 <= k < i :: cs[k] in index
    {
      if cs[i] !in index {
        return Some(cs[i]);
      }
    }
    missing := None;
  }

  // ---------- from all snapshots ----------

  function RootsOf(snapshots: seq<Option<seq<Id>>>): set<Id> {
    set k, r | 0 <= k < |snapshots| && snapshots[k].Some? && r in snapshots[k].value :: r
  }

  /** No error means: the trees found are the least set that contains the roots and every link, and the
      chunks found are exactly the chunks those trees use, every one of them in the index. */
  lemma NoErrorsMeansComplete(w: Walk, snapshots: seq<Option<seq<Id>>>, roots: set<Id>)
    requires w.Valid(snapshots) && roots <= w.live && NoFurther(w.repo, roots, w.live)
    requires w.Dealt(w.live, None) && w.errors == []
    ensures IsReach(w.repo, roots, w.live)
    ensures forall c :: c in w.referenced <==> UsedBy(w.repo, w.live, c)
    ensures forall c | c in w.referenced :: c in w.repo.index
  {
    forall t, l | t in w.live && t in w.repo.trees && LinksTo(w.repo.trees[t], l) ensures l in w.live {
      assert TreeDone(w.repo, t, None, w.live, w.referenced, w.errors);
      if w.repo.trees[t].prev != Some(l) {
        assert EntryDone(w.repo, t, Dir(Some(l)), w.live, w.referenced, w.errors);
      }
    }
    forall c | UsedBy(w.repo, w.live, c) ensures c in w.referenced && c in w.repo.index {
      var t, e :| t in w.live && t in w.repo.trees && e in w.repo.trees[t].entries && Uses(w.repo, e, c);
      assert TreeDone(w.repo, t, None, w.live, w.referenced, w.errors);
      assert EntryDone(w.repo, t, e, w.live, w.referenced, w.errors);
    }
  }

  /** The walk over a list of snapshots; `None` stands for one that cannot be read. It goes on after an error: whatever
      it reaches is dealt with, or what is wrong with it is reported. */
  method WalkReferences(repo: Repo, snapshots: seq<Option<seq<Id>>>) returns (w: Walk)
    ensures w.repo == repo && w.Valid(snapshots) && RootsOf(snapshots) <= w.live
    ensures NoFurther(repo, RootsOf(snapshots), w.live)
    ensures w.Dealt(w.live, None)
    ensures forall k | 0 <= k < |snapshots| && snapshots[k].None? :: UnreadableSnapshot(k) in w.errors
    ensures w.errors == [] ==> IsReach(repo, RootsOf(snapshots), w.live)
    ensures w.errors == [] ==> forall c :: c in w.referenced <==> UsedBy(repo, w.live, c)
    ensures w.errors == [] ==> forall c | c in w.referenced :: c in repo.index
  {
    hide IsReach, NoFurther, UsedBy, AllDone;
    w := new Walk(repo);
    assert NoFurther(repo, RootsOf(snapshots), {}) by { NowhereYet(repo, RootsOf(snapshots)); }
    NothingDone(repo, None, w.live, w.referenced, w.errors);
    for k := 0 to |snapshots|
      invariant fresh(w) && w.repo == repo && w.Valid(snapshots) && NoFurther(repo, RootsOf(snapshots), w.live)
      invariant forall j, r | 0 <= j < k && snapshots[j].Some? && r in snapshots[j].value :: r in w.live
      invariant w.Dealt(w.live, None)
      invariant forall j | 0 <= j < k && snapshots[j].None? :: UnreadableSnapshot(j) in w.errors
    {
      match snapshots[k] {
        case None =>
          ghost var e0 := w.errors;
          w.errors := w.errors + [UnreadableSnapshot(k)];
          assert UnreadableSnapshot(k) in w.errors;
          DoneStaysDone(repo, w.live, None, w.live, w.referenced, e0, w.live, w.referenced, w.errors);
        case Some(roots) =>
          for i := 0 to |roots|
            invariant fresh(w) && w.repo == repo && w.Valid(snapshots) && NoFurther(repo, RootsOf(snapshots), w.live)
            invariant forall j, r | 0 <= j < k && snapshots[j].Some? && r in snapshots[j].value :: r in w.live
            invariant forall j | 0 <= j < i :: roots[j] in w.live
            invariant w.Dealt(w.live, None)
            invariant forall j | 0 <= j < k && snapshots[j].None? :: UnreadableSnapshot(j) in w.errors
          {
            ghost var mid, r0, e0 := w.live, w.referenced, w.errors;
            assert snapshots[k].Some? && roots[i] in snapshots[k].value;
            assert roots[i] in RootsOf(snapshots);
            w.WalkTree(roots[i], 1, snapshots, FromRoot(roots[i]));
            FromRoots(repo, RootsOf(snapshots), mid, roots[i], w.live);
            assert mid - {} == mid && w.live - {} == w.live;
            JoinDone(repo, {}, mid, w.live, r0, e0, w.referenced, w.errors);
          }
      }
    }
    if w.errors == [] {
      NoErrorsMeansComplete(w, snapshots, RootsOf(snapshots));
    }
  }

  lemma NowhereYet(repo: Repo, roots: set<Id>)
    ensures NoFurther(repo, roots, {})
  {
  }

  lemma FromRoots(repo: Repo, roots: set<Id>, mid: set<Id>, root: Id, live: set<Id>)
    requires NoFurther(repo, roots, mid) && root in roots && NoFurther(repo, mid + {root}, live)
    ensures NoFurther(repo, roots, live)
  {
  }

  /** Nothing is wrong with what the roots reach. */
  ghost predicate Sound(repo: Repo, ids: set<Id>) {
    forall t | t in ids :: t in repo.trees && forall e | e in repo.trees[t].entries :: Whole(repo, e)
  }

  /** Every damaged tree that is reached is reported, whatever else is damaged. */
  lemma DamageIsReported(w: Walk, t: Id)
    requires w.Dealt(w.live, None) && t in w.live
    ensures t !in w.repo.trees ==> Unreadable(t) in w.errors
    ensures t in w.repo.trees && (exists e :: e in w.repo.trees[t].entries && !Whole(w.repo, e)) ==>
              BadList(t) in w.errors || exists c :: c !in w.repo.index && MissingChunk(t, c) in w.errors
  {
    assert TreeDone(w.repo, t, None, w.live, w.referenced, w.errors);
    if t in w.repo.trees {
      if e :| e in w.repo.trees[t].entries && !Whole(w.repo, e) {
        assert EntryDone(w.repo, t, e, w.live, w.referenced, w.errors);
        if e.content != DIRECT && (forall c | c in e.chunks :: c in w.repo.index)
           && w.repo.resolve(e.chunks, e.content).None? {
          assert BadList(t) in w.errors;
        } else {
          var c :| Uses(w.repo, e, c) && c !in w.repo.index && MissingChunk(t, c) in w.errors;
        }
      }
    }
  }

  /** Where all snapshots can be read and no directories are nested too deep, the walk reports an error exactly when
      something it reaches is damaged. */
  lemma ErrorsExactlyWhenDamaged(w: Walk, snapshots: seq<Option<seq<Id>>>)
    requires w.Valid(snapshots) && w.Dealt(w.live, None)
    requires forall k | 0 <= k < |snapshots| :: snapshots[k].Some?
    requires forall id :: !NestedTooDeep(w.repo, RootsOf(snapshots), id)
    ensures w.errors == [] <==> Sound(w.repo, w.live)
  {
    if w.errors == [] {
      forall t | t in w.live ensures t in w.repo.trees && forall e | e in w.repo.trees[t].entries :: Whole(w.repo, e) {
        if t !in w.repo.trees || exists e :: e in w.repo.trees[t].entries && !Whole(w.repo, e) {
          DamageIsReported(w, t);
        }
      }
    } else {
      var e := w.errors[0];
      assert e in w.errors && Real(w.repo, snapshots, w.live, e);
    }
  }
}
