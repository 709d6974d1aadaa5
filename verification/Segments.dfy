/** Large directories: written as a chain of trees, read back along `prev`, and streamed beside a new
  listing (backup.rs, repo.rs, tree.rs). */
module Segments {
  import opened Wrappers

  type Id = nat
  type Name = seq<Byte>

  /** `MAX_NODES_PER_TREE` */
  const MAX_NODES_PER_TREE: nat := 10_000

  datatype Entry = Entry(name: Name, node: nat)

  datatype Tree = Tree(entries: seq<Entry>, prev: Option<Id>)

  // ---------- the order of names ----------

  /** Byte by byte; a prefix comes first. */
  predicate Less(a: Name, b: Name) {
    b != [] && (a == [] || a[0] < b[0] || (a[0] == b[0] && Less(a[1..], b[1..])))
  }

  lemma {:induction false} LessIsTransitive(a: Name, b: Name, c: Name)
    requires Less(a, b) && Less(b, c)
    ensures Less(a, c)
    decreases |a|
  {
    if a != [] && a[0] == b[0] && b[0] == c[0] {
      LessIsTransitive(a[1..], b[1..], c[1..]);
    }
  }

  lemma {:induction false} LessIsTotal(a: Name, b: Name)
    ensures Less(a, b) || a == b || Less(b, a)
    ensures !(Less(a, b) && Less(b, a)) && !Less(a, a)
    decreases |a|
  {
    if a != [] && b != [] {
      LessIsTotal(a[1..], b[1..]);
      assert a == [a[0]] + a[1..] && b == [b[0]] + b[1..];
    }
    if a != [] {
      LessIsTotal(a[1..], a[1..]);
    }
  }

  ghost predicate Sorted(es: seq<Entry>) {
    forall i, j | 0 <= i < j < |es| :: Less(es[i].name, es[j].name)
  }

  lemma SortedSnoc(es: seq<Entry>, e: Entry)
    requires Sorted(es) && (es != [] ==> Less(es[|es| - 1].name, e.name))
    ensures Sorted(es + [e])
  {
    forall i | 0 <= i < |es| ensures Less(es[i].name, e.name) {
      if i < |es| - 1 {
        LessIsTransitive(es[i].name, es[|es| - 1].name, e.name);
      }
    }
  }

  /** `Tree::validate`, the part about the order: it compares neighbours only. */
  method Validate(es: seq<Entry>) returns (ok: bool)
    ensures ok <==> Sorted(es)
  {
    var last: Option<Name> := None;
    for i := 0 to |es|
      invariant Sorted(es[..i]) && last == (if i == 0 then None else Some(es[i - 1].name))
    {
      var e := es[i];
      if last.Some? && !Less(last.value, e.name) {
        assert i > 0 && !Less(es[i - 1].name, es[i].name);
        return false;
      }
      SortedSnoc(es[..i], e);
      assert es[..i + 1] == es[..i] + [e];
      last := Some(e.name);
    }
    assert es[..|es|] == es;
    ok := true;
  }

  // ---------- chains ----------

  /** The segments of a directory, oldest first, `last` the newest. */
  ghost predicate IsChain(trees: map<Id, Tree>, last: Id, ids: seq<Id>) {
    && ids != [] && ids[|ids| - 1] == last
    && (forall i | 0 <= i < |ids| :: ids[i] in trees)
    && trees[ids[0]].prev == None
    && forall i | 0 <= i < |ids| - 1 :: trees[ids[i + 1]].prev == Some(ids[i])
  }

  ghost function Entries(trees: map<Id, Tree>, ids: seq<Id>): seq<Entry>
    requires forall i | 0 <= i < |ids| :: ids[i] in trees
  {
    if ids == [] then [] else Entries(trees, ids[..|ids| - 1]) + trees[ids[|ids| - 1]].entries
  }

  lemma {:induction false} ChainStays(trees: map<Id, Tree>, trees': map<Id, Tree>, ids: seq<Id>)
    requires forall i | 0 <= i < |ids| :: ids[i] in trees
    requires forall t | t in trees :: t in trees' && trees'[t] == trees[t]
    ensures Entries(trees', ids) == Entries(trees, ids)
    decreases |ids|
  {
    if ids != [] {
      ChainStays(trees, trees', ids[..|ids| - 1]);
    }
  }

  lemma ChainSnoc(trees: map<Id, Tree>, last: Id, ids: seq<Id>, id: Id)
    requires IsChain(trees, last, ids) && id in trees && trees[id].prev == Some(last)
    ensures IsChain(trees, id, ids + [id])
    ensures Entries(trees, ids + [id]) == Entries(trees, ids) + trees[id].entries
  {
    assert (ids + [id])[..|ids|] == ids;
  }

  /** In a chain the same tree does not come twice: walking back from both places would never meet the
      first segment at the same time. */
  lemma {:induction false} ChainHasNoRepeats(trees: map<Id, Tree>, last: Id, ids: seq<Id>, p: nat, q: nat)
    requires IsChain(trees, last, ids) && p < q < |ids|
    ensures ids[p] != ids[q]
    decreases p
  {
    assert trees[ids[(q - 1) + 1]].prev == Some(ids[q - 1]);
    if p > 0 {
      assert trees[ids[(p - 1) + 1]].prev == Some(ids[p - 1]);
      ChainHasNoRepeats(trees, last, ids, p - 1, q - 1);
    }
  }

  datatype ChainError = Loops(id: Id) | Unreadable(id: Id)

  /** `back` are the segments walked so far, newest first; `next` is to be read. */
  ghost predicate Walked(trees: map<Id, Tree>, last: Id, back: seq<Id>, next: Option<Id>) {
    && (forall k | 0 <= k < |back| :: back[k] in trees)
    && (back == [] ==> next == Some(last)) && (back != [] ==> back[0] == last)
    && (forall k | 0 <= k < |back| - 1 :: trees[back[k]].prev == Some(back[k + 1]))
    && (back != [] ==> trees[back[|back| - 1]].prev == next)
  }

  /** What was walked is what any chain consists of. */
  lemma {:induction false} WalkFollowsChain(trees: map<Id, Tree>, last: Id, back: seq<Id>, next: Option<Id>, ids: seq<Id>, k: nat)
    requires Walked(trees, last, back, next) && IsChain(trees, last, ids) && k < |back|
    ensures k < |ids| && ids[|ids| - 1 - k] == back[k]
    decreases k
  {
    if k > 0 {
      WalkFollowsChain(trees, last, back, next, ids, k - 1);
      var at := |ids| - k;
      assert trees[back[k - 1]].prev == Some(back[(k - 1) + 1]);
      assert at > 0;
      assert trees[ids[(at - 1) + 1]].prev == Some(ids[at - 1]);
    }
  }

  lemma NextFollowsChain(trees: map<Id, Tree>, last: Id, back: seq<Id>, next: Option<Id>, ids: seq<Id>)
    requires Walked(trees, last, back, next) && IsChain(trees, last, ids)
    ensures next.Some? ==> |back| < |ids| && ids[|ids| - 1 - |back|] == next.value
    ensures next.None? ==> |back| == |ids|
  {
    if |back| > 0 {
      var k := |back| - 1;
      WalkFollowsChain(trees, last, back, next, ids, k);
      var at := |ids| - 1 - k;
      if at > 0 {
        assert trees[ids[(at - 1) + 1]].prev == Some(ids[at - 1]);
      }
    }
  }

  function Reverse(ids: seq<Id>): (r: seq<Id>)
    ensures |r| == |ids| && forall k | 0 <= k < |r| :: r[k] == ids[|ids| - 1 - k]
  {
    if ids == [] then [] else Reverse(ids[1..]) + [ids[0]]
  }

  lemma WalkedIsChain(trees: map<Id, Tree>, last: Id, back: seq<Id>)
    requires Walked(trees, last, back, None)
    ensures IsChain(trees, last, Reverse(back))
  {
    var ids := Reverse(back);
    forall i | 0 <= i < |ids| - 1 ensures trees[ids[i + 1]].prev == Some(ids[i]) {
      var k := |back| - 2 - i;
      assert trees[back[k]].prev == Some(back[k + 1]);
    }
  }

  /** Follows `prev` to the first segment. Fails exactly when there is no chain. */
  method FollowChain(trees: map<Id, Tree>, last: Id) returns (r: Result<seq<Id>, ChainError>)
    ensures r.Ok? ==> IsChain(trees, last, r.value)
    ensures r.Err? ==> forall ids :: !IsChain(trees, last, ids)
  {
    var back: seq<Id> := [];
    var next := Some(last);
    ghost var seen: set<Id> := {};
    while next.Some?
      invariant Walked(trees, last, back, next)
      invariant (forall x :: x in seen <==> x in back) && seen <= trees.Keys
      decreases trees.Keys - seen, next
    {
      var id := next.value;
      if id in back {
        forall ids ensures !IsChain(trees, last, ids) {
          if IsChain(trees, last, ids) {
            NextFollowsChain(trees, last, back, next, ids);
            var k :| 0 <= k < |back| && back[k] == id;
            WalkFollowsChain(trees, last, back, next, ids, k);
            ChainHasNoRepeats(trees, last, ids, |ids| - 1 - |back|, |ids| - 1 - k);
          }
        }
        return Err(Loops(id));
      }
      if id !in trees {
        forall ids ensures !IsChain(trees, last, ids) {
          if IsChain(trees, last, ids) {
            NextFollowsChain(trees, last, back, next, ids);
          }
        }
        return Err(Unreadable(id));
      }
      next := trees[id].prev;
      back := back + [id];
      seen := seen + {id};
    }
    WalkedIsChain(trees, last, back);
    r := Ok(Reverse(back));
  }

  lemma ChainIsUnique(trees: map<Id, Tree>, last: Id, a: seq<Id>, b: seq<Id>)
    requires IsChain(trees, last, a) && IsChain(trees, last, b)
    ensures a == b
  {
    var back := Reverse(a);
    assert Walked(trees, last, back, None) by {
      forall k | 0 <= k < |back| - 1 ensures trees[back[k]].prev == Some(back[k + 1]) {
        var i := |a| - 2 - k;
        assert trees[a[i + 1]].prev == Some(a[i]);
      }
    }
    NextFollowsChain(trees, last, back, None, b);
    forall i | 0 <= i < |b| ensures a[i] == b[i] {
      WalkFollowsChain(trees, last, back, None, b, |b| - 1 - i);
    }
  }

  /** `read_tree_chain`: the whole directory in order, if and only if there is a chain. */
  method ReadTreeChain(trees: map<Id, Tree>, last: Id) returns (r: Result<seq<Entry>, ChainError>)
    ensures r.Ok? ==> exists ids :: IsChain(trees, last, ids)
    ensures forall ids | IsChain(trees, last, ids) :: r == Ok(Entries(trees, ids))
  {
    var parts := FollowChain(trees, last);
    if parts.Err? {
      return Err(parts.error);
    }
    var ids := parts.value;
    var all: seq<Entry> := [];
    for i := 0 to |ids|
      invariant all == Entries(trees, ids[..i])
    {
      assert ids[..i + 1][..i] == ids[..i];
      all := all + trees[ids[i]].entries;
    }
    assert ids[..|ids|] == ids;
    forall other | IsChain(trees, last, other) ensures other == ids {
      ChainIsUnique(trees, last, other, ids);
    }
    r := Ok(all);
  }

  // ---------- writing a directory ----------

  /** The entries of the items that could be processed. */
  function Kept(items: seq<Option<Entry>>): seq<Entry> {
    if items == [] then []
    else Kept(items[..|items| - 1]) + if items[|items| - 1].Some? then [items[|items| - 1].value] else []
  }

  lemma {:induction false} KeptGrows(items: seq<Option<Entry>>, i: nat)
    requires i <= |items|
    ensures Kept(items[..i]) <= Kept(items)
    decreases |items|
  {
    if i < |items| {
      KeptGrows(items[..|items| - 1], i);
      assert items[..|items| - 1][..i] == items[..i];
    } else {
      assert items[..i] == items;
    }
  }

  datatype WriteError = Unsorted

  /** A chain whose segments readers accept. */
  ghost predicate Accepted(trees: map<Id, Tree>, ids: seq<Id>) {
    forall i | 0 <= i < |ids| ::
      ids[i] in trees && Sorted(trees[ids[i]].entries) && |trees[ids[i]].entries| <= MAX_NODES_PER_TREE
  }

  /** What the segments written so far hold; `prev` is the newest. */
  ghost predicate Written(trees: map<Id, Tree>, prev: Option<Id>, ids: seq<Id>, es: seq<Entry>) {
    && Accepted(trees, ids) && Entries(trees, ids) == es
    && (if prev.None? then ids == [] else IsChain(trees, prev.value, ids))
  }

  lemma WrittenNext(trees: map<Id, Tree>, trees': map<Id, Tree>, prev: Option<Id>, ids: seq<Id>, es: seq<Entry>,
                    id: Id, part: seq<Entry>)
    requires Written(trees, prev, ids, es) && (forall t | t in trees :: t in trees' && trees'[t] == trees[t])
    requires id in trees' && trees'[id] == Tree(part, prev) && Sorted(part) && |part| <= MAX_NODES_PER_TREE
    ensures Written(trees', Some(id), ids + [id], es + part)
  {
    ChainStays(trees, trees', ids);
    if prev.None? {
      var one := [id];
      assert ids + one == one && one[..0] == [];
      assert Entries(trees', one) == Entries(trees', one[..0]) + part;
    } else {
      assert IsChain(trees', prev.value, ids);
      ChainSnoc(trees', prev.value, ids, id);
    }
  }

  class TreeStore {
    /** The keyed hash of a tree. */
    const idOf: Tree -> Id
    var trees: map<Id, Tree>

    ghost predicate Valid()
      reads this
    {
      && (forall s, t | idOf(s) == idOf(t) :: s == t)
      && forall t | t in trees :: idOf(trees[t]) == t
    }

    constructor (idOf: Tree -> Id)
      requires forall s, t | idOf(s) == idOf(t) :: s == t
      ensures Valid() && trees == map[]
    {
      this.idOf, trees := idOf, map[];
    }

    /** Refuses what readers would refuse; a tree that is there already is not written again. */
    method WriteTree(t: Tree) returns (r: Result<Id, WriteError>)
      requires Valid()
      modifies `trees
      ensures Valid() && forall x | x in old(trees) :: x in trees && trees[x] == old(trees)[x]
      ensures r.Ok? ==> r.value in trees && trees[r.value] == t
      ensures r.Err? <==> !Sorted(t.entries)
    {
      var ok := Validate(t.entries);
      if !ok {
        return Err(Unsorted);
      }
      var id := idOf(t);
      if id !in trees {
        trees := trees[id := t];
      }
      r := Ok(id);
    }

    /** The entries of a directory, in the order of the listing; items that fail are skipped. The result
        is the newest segment. */
    method WriteDirectory(items: seq<Option<Entry>>) returns (r: Result<Id, WriteError>, ghost ids: seq<Id>)
      requires Valid()
      modifies `trees
      ensures Valid() && forall x | x in old(trees) :: x in trees && trees[x] == old(trees)[x]
      ensures r.Ok? ==> IsChain(trees, r.value, ids) && Accepted(trees, ids) && Entries(trees, ids) == Kept(items)
      ensures r.Ok? ==> Segmented(trees, ids)
      ensures Sorted(Kept(items)) ==> r.Ok?
    {
      hide IsChain, Accepted, Entries;
      var children: seq<Entry> := [];
      var prev: Option<Id> := None;
      ghost var es: seq<Entry> := [];
      ids := [];
      assert Written(trees, prev, ids, es) by { NothingWritten(trees); }
      for i := 0 to |items|
        invariant Valid() && forall x | x in old(trees) :: x in trees && trees[x] == old(trees)[x]
        invariant Written(trees, prev, ids, es) && es + children == Kept(items[..i]) && |children| < MAX_NODES_PER_TREE
        invariant forall k | 0 <= k < |ids| :: ids[k] in trees && |trees[ids[k]].entries| == MAX_NODES_PER_TREE
      {
        assert items[..i + 1][..i] == items[..i];
        KeptGrows(items, i + 1);
        if items[i].Some? {
          children := children + [items[i].value];
        }
        assert es + children == Kept(items[..i + 1]);
        if |children| >= MAX_NODES_PER_TREE {
          var part := children;
          children := [];
          ghost var before := trees;
          var id := WriteTree(Tree(part, prev));
          if id.Err? {
            PartIsSorted(es, part, Kept(items));
            return Err(id.error), ids;
          }
          WrittenNext(before, trees, prev, ids, es, id.value, part);
          prev, ids, es := Some(id.value), ids + [id.value], es + part;
        }
      }
      assert items[..|items|] == items;
      ghost var before := trees;
      var id := WriteTree(Tree(children, prev));
      if id.Err? {
        PartIsSorted(es, children, Kept(items));
        return Err(id.error), ids;
      }
      WrittenNext(before, trees, prev, ids, es, id.value, children);
      r, ids := Ok(id.value), ids + [id.value];
    }
  }

  /** Every segment before the last is full, and the last one is not. */
  ghost predicate Segmented(trees: map<Id, Tree>, ids: seq<Id>) {
    && ids != [] && (forall k | 0 <= k < |ids| :: ids[k] in trees)
    && (forall k | 0 <= k < |ids| - 1 :: |trees[ids[k]].entries| == MAX_NODES_PER_TREE)
    && |trees[ids[|ids| - 1]].entries| < MAX_NODES_PER_TREE
  }

  lemma NothingWritten(trees: map<Id, Tree>)
    ensures Written(trees, None, [], [])
  {
  }

  lemma PartIsSorted(es: seq<Entry>, part: seq<Entry>, all: seq<Entry>)
    requires es + part <= all
    ensures Sorted(all) ==> Sorted(part)
  {
    if Sorted(all) {
      forall i, j | 0 <= i < j < |part| ensures Less(part[i].name, part[j].name) {
        assert part[i] == all[|es| + i] && part[j] == all[|es| + j];
      }
    }
  }

  /** A directory of any size, written and read back, is the same directory. */
  method DirectoryRoundTrip(s: TreeStore, items: seq<Option<Entry>>) returns (r: Result<seq<Entry>, ChainError>)
    requires s.Valid() && Sorted(Kept(items))
    modifies s
    ensures r == Ok(Kept(items))
  {
    var id, ids := s.WriteDirectory(items);
    r := ReadTreeChain(s.trees, id.value);
  }

  // ---------- streaming the parent directory beside a new listing ----------

  /** The entry of that name. */
  ghost function Lookup(es: seq<Entry>, name: Name): Option<Entry> {
    if es == [] then None
    else if es[0].name == name then Some(es[0])
    else Lookup(es[1..], name)
  }

  /** Without the names before `name` at the front. */
  ghost function DropTo(es: seq<Entry>, name: Name): seq<Entry> {
    if es != [] && Less(es[0].name, name) then DropTo(es[1..], name) else es
  }

  /** What one query takes from the stream. */
  ghost function Taken(es: seq<Entry>, name: Name): Option<Entry> {
    var rest := DropTo(es, name);
    if rest != [] && rest[0].name == name then Some(rest[0]) else None
  }

  ghost function Left(es: seq<Entry>, name: Name): seq<Entry> {
    var rest := DropTo(es, name);
    if rest != [] && rest[0].name == name then rest[1..] else rest
  }

  /** In a sorted stream the query finds what a lookup finds, and later names are found as before. */
  lemma {:induction false} TakenIsLookup(es: seq<Entry>, name: Name, later: Name)
    requires Sorted(es) && Less(name, later)
    ensures Taken(es, name) == Lookup(es, name)
    ensures Sorted(Left(es, name)) && Lookup(Left(es, name), later) == Lookup(es, later)
    decreases |es|
  {
    LessIsTotal(name, later);
    if es != [] {
      LessIsTotal(es[0].name, name);
      if Less(es[0].name, name) {
        LessIsTransitive(es[0].name, name, later);
        LessIsTotal(es[0].name, later);
        TakenIsLookup(es[1..], name, later);
      } else if es[0].name != name {
        NotBelow(es, name);
      }
    }
  }

  lemma {:induction false} NotBelow(es: seq<Entry>, name: Name)
    requires Sorted(es) && (es != [] ==> Less(name, es[0].name))
    ensures Lookup(es, name) == None
    decreases |es|
  {
    if es != [] {
      LessIsTotal(name, es[0].name);
      if |es| > 1 {
        LessIsTransitive(name, es[0].name, es[1].name);
      }
      NotBelow(es[1..], name);
    }
  }

  lemma Regroup(a: seq<Entry>, b: seq<Entry>, c: seq<Entry>)
    ensures (a + b) + c == a + (b + c)
  {
  }

  lemma {:induction false} EntriesCons(trees: map<Id, Tree>, ids: seq<Id>)
    requires ids != [] && forall i | 0 <= i < |ids| :: ids[i] in trees
    ensures Entries(trees, ids) == trees[ids[0]].entries + Entries(trees, ids[1..])
    decreases |ids|
  {
    if |ids| > 1 {
      var front, tail, last := ids[..|ids| - 1], ids[1..], ids[|ids| - 1];
      EntriesCons(trees, front);
      assert front[0] == ids[0] && front[1..] == tail[..|tail| - 1] && tail[|tail| - 1] == last;
      Regroup(trees[ids[0]].entries, Entries(trees, front[1..]), trees[last].entries);
    } else {
      assert ids[..0] == [] && ids[1..] == [];
    }
  }

  lemma FoundHere(es: seq<Entry>, name: Name)
    requires es != [] && es[0].name == name
    ensures DropTo(es, name) == es
  {
    LessIsTotal(name, name);
  }

  lemma NotFoundHere(es: seq<Entry>, name: Name)
    requires es != [] && !Less(es[0].name, name)
    ensures DropTo(es, name) == es
  {
  }

  class ParentStream {
    const trees: map<Id, Tree>
    /** The segments not yet read, oldest first. */
    var parts: seq<Id>
    /** The rest of the segment being read. */
    var current: seq<Entry>

    ghost predicate Valid()
      reads this
    {
      forall i | 0 <= i < |parts| :: parts[i] in trees
    }

    ghost function Remaining(): seq<Entry>
      requires Valid()
      reads this
    {
      current + Entries(trees, parts)
    }

    constructor (trees: map<Id, Tree>, parts: seq<Id>)
      requires forall i | 0 <= i < |parts| :: parts[i] in trees
      ensures Valid() && this.trees == trees && Remaining() == Entries(trees, parts)
    {
      this.trees, this.parts, current := trees, parts, [];
    }

    /** `take_name`; `readable`: the trees that can still be read now. Losing one ends the stream. */
    method TakeName(name: Name, readable: set<Id>) returns (r: Option<Entry>)
      requires Valid()
      modifies this
      ensures Valid()
      ensures (forall id | id in old(parts) :: id in readable) ==>
                r == Taken(old(Remaining()), name) && Remaining() == Left(old(Remaining()), name)
      ensures r.Some? ==> r.value.name == name && r.value in old(Remaining())
      ensures r.Some? ==> r.value in old(current) || exists id :: id in old(parts) && id in readable && r.value in trees[id].entries
      ensures || (r == Taken(old(Remaining()), name) && Remaining() == Left(old(Remaining()), name))
              || (r.None? && Remaining() == [] && exists id :: id in old(parts) && id !in readable)
    {
      hide Less;
      ghost var before := Remaining();
      while true
        invariant Valid() && DropTo(Remaining(), name) == DropTo(before, name)
        invariant forall id | id in parts :: id in old(parts)
        invariant forall e | e in Remaining() :: e in before
        invariant forall e | e in current ::
                    e in old(current) || exists id :: id in old(parts) && id in readable && e in trees[id].entries
        decreases |parts|
      {
        SkipBelow(name);
        if current != [] && current[0].name == name {
          assert Remaining()[0] == current[0] && Remaining()[1..] == current[1..] + Entries(trees, parts);
          FoundHere(Remaining(), name);
          r := Some(current[0]);
          current := current[1..];
          return;
        }
        if current != [] {
          assert Remaining()[0] == current[0];
          NotFoundHere(Remaining(), name);
          return None;
        }
        if parts == [] {
          assert Remaining() == [];
          return None;
        }
        EntriesCons(trees, parts);
        assert Remaining() == Entries(trees, parts);
        var id := parts[0];
        parts := parts[1..];
        if id !in readable {
          assert id in old(parts);
          parts := [];
          return None;
        }
        current := trees[id].entries;
      }
    }

    /** Drops the names before `name` from the segment being read. */
    method SkipBelow(name: Name)
      requires Valid()
      modifies `current
      ensures Valid() && DropTo(Remaining(), name) == DropTo(old(Remaining()), name)
      ensures current == [] || !Less(current[0].name, name)
      ensures forall e | e in Remaining() :: e in old(Remaining())
      ensures forall e | e in current :: e in old(current)
    {
      while current != [] && Less(current[0].name, name)
        invariant DropTo(Remaining(), name) == DropTo(old(Remaining()), name)
        invariant forall e | e in Remaining() :: e in old(Remaining())
        invariant forall e | e in current :: e in old(current)
      {
        assert Remaining()[0] == current[0] && Remaining()[1..] == current[1..] + Entries(trees, parts);
        current := current[1..];
      }
    }
  }

  /** The answers to a list of queries. */
  ghost function Answers(es: seq<Entry>, names: seq<Name>): seq<Option<Entry>>
    decreases |names|
  {
    if names == [] then [] else [Taken(es, names[0])] + Answers(Left(es, names[0]), names[1..])
  }

  /** Asked for growing names, the stream answers like a lookup in the whole directory. */
  lemma {:induction false} GrowingQueriesAreLookups(es: seq<Entry>, names: seq<Name>, k: nat)
    requires Sorted(es) && k < |names| && forall i, j | 0 <= i < j < |names| :: Less(names[i], names[j])
    ensures |Answers(es, names)| > k && Answers(es, names)[k] == Lookup(es, names[k])
    decreases |names|
  {
    if k == 0 {
      var later := names[0] + [0];
      PrefixIsLess(names[0], later);
      TakenIsLookup(es, names[0], later);
    } else {
      TakenIsLookup(es, names[0], names[k]);
      GrowingQueriesAreLookups(Left(es, names[0]), names[1..], k - 1);
    }
  }

  lemma {:induction false} PrefixIsLess(a: Name, b: Name)
    requires a < b
    ensures Less(a, b)
    decreases |a|
  {
    if a != [] {
      PrefixIsLess(a[1..], b[1..]);
    }
  }
}
