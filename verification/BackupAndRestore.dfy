/** What a backup has taken, restored: everything comes back at the path it was taken from, and as what it was.

  The roots of a snapshot are those `SourceWalk.BackupSources` writes; the statements are about the file system, the
  backup and what a restore makes, and not about how a restore finds the place of a root. */
module BackupAndRestore {
  import opened Limits
  import opened Wrappers
  import opened PathFiltering
  import opened Restoring
  import B = SourceWalk
  import R = RestoringRoots

  // ---------- from the backup to the snapshot ----------

  function NodeOf(e: B.Out): (n: Node)
    ensures n.name == e.name && !n.Unknown? && (n.Dir? <==> e.OutDir?)
  {
    match e
    case OutDir(name, entries) => Dir(name, NodesOf(entries))
    case OutFile(name) => File(name)
    case OutLink(name) => Symlink(name)
  }

  function NodesOf(es: seq<B.Out>): (ns: seq<Node>)
    ensures |ns| == |es| && forall k | 0 <= k < |es| :: ns[k] == NodeOf(es[k])
  {
    if es == [] then [] else NodesOf(es[..|es| - 1]) + [NodeOf(es[|es| - 1])]
  }

  function RootOf(t: B.Taken): R.Root {
    R.Root(t.path, NodesOf(t.entries))
  }

  function SnapshotOf(ts: seq<B.Taken>): (roots: seq<R.Root>)
    ensures |roots| == |ts| && forall i | 0 <= i < |ts| :: roots[i] == RootOf(ts[i])
  {
    seq(|ts|, i requires 0 <= i < |ts| => RootOf(ts[i]))
  }

  /** Making at `path` what the entry stands for. */
  function EventFor(e: B.Out, path: Path): Event {
    match e
    case OutDir(_, _) => MakeDir(path)
    case OutFile(_) => MakeFile(path)
    case OutLink(_) => MakeLink(path)
  }

  /** What is made is what the source has there. */
  ghost predicate AsInSource(fs: B.Item, ev: Event) {
    match ev
    case MakeDir(p) => B.Lookup(fs, p).Some? && B.Lookup(fs, p).value.DirItem?
    case MakeFile(p) => B.Lookup(fs, p).Some? && B.Lookup(fs, p).value.FileItem?
    case MakeLink(p) => B.Lookup(fs, p).Some? && B.Lookup(fs, p).value.LinkItem?
  }

  /** The one case that a snapshot cannot tell from a single file: a directory of which nothing was taken but a file
      or link with its own name. */
  ghost predicate Ambiguous(fs: B.Item, t: B.Taken)
    requires B.Lookup(fs, t.path).Some?
  {
    && B.Lookup(fs, t.path).value.DirItem? && t.path != []
    && |t.entries| == 1 && !t.entries[0].OutDir? && t.entries[0].name == t.path[|t.path| - 1]
  }

  /** The backup of these roots. */
  ghost predicate BackedUp(o: B.Options, fs: B.Item, ts: seq<B.Taken>, nameds: seq<B.Named>) {
    && fs.DirItem? && B.OneOfEach(fs.children) && |ts| == |nameds|
    && forall i | 0 <= i < |ts| :: B.Lookup(fs, ts[i].path).Some? && B.Faithful(o, fs, ts[i], nameds[i])
  }

  // ---------- what a restore makes was in the source ----------

  lemma {:induction false} MadeFromEntry(r: Rules, es: seq<B.Out>, name: Name, n: nat, path: Path, depth: nat, ev: Event)
    returns (rel: Path, e: B.Out)
    requires n <= |es| && ev in EventsAmong(r, Dir(name, NodesOf(es)), n, path, depth)
    ensures rel != [] && B.HasEntry(es, rel, e) && ev == EventFor(e, path + rel)
    decreases es, n
  {
    hide Selected, ExcludedAt, Chosen;
    if ev in EventsAmong(r, Dir(name, NodesOf(es)), n - 1, path, depth) {
      rel, e := MadeFromEntry(r, es, name, n - 1, path, depth, ev);
    } else {
      var c := es[n - 1];
      rel, e := MadeFromOne(r, c, path, depth + 1, ev);
      assert B.HasEntryAt(es[n - 1], rel, e);
    }
  }

  lemma {:induction false} MadeFromOne(r: Rules, c: B.Out, path: Path, depth: nat, ev: Event) returns (rel: Path, e: B.Out)
    requires ev in Events(r, NodeOf(c), path + [c.name], depth)
    ensures rel != [] && B.HasEntryAt(c, rel, e) && ev == EventFor(e, path + rel)
    decreases c, 0
  {
    hide Selected, ExcludedAt, Chosen;
    if ev == EventFor(c, path + [c.name]) {
      rel, e := [c.name], c;
    } else {
      var below;
      below, e := MadeFromEntry(r, c.entries, c.name, |c.entries|, path + [c.name], depth, ev);
      rel := [c.name] + below;
      assert rel[1..] == below && path + rel == (path + [c.name]) + below;
    }
  }

  /** What the source has below a directory is well formed as well. */
  lemma {:induction false} OneOfEachBelow(item: B.Item, path: Path)
    requires item.DirItem? && B.OneOfEach(item.children) && B.Lookup(item, path).Some?
    ensures B.Lookup(item, path).value.DirItem? ==> B.OneOfEach(B.Lookup(item, path).value.children)
    decreases |path|
  {
    if path != [] {
      var c := B.Child(item.children, path[0]).value;
      var i :| 0 <= i < |item.children| && item.children[i] == c;
      if c.DirItem? {
        OneOfEachBelow(c, path[1..]);
      }
    }
  }

  lemma EventMirrors(fs: B.Item, e: B.Out, path: Path, depth: nat)
    requires B.Lookup(fs, path).Some? && B.MirrorsItem(B.Lookup(fs, path).value, e, depth)
    ensures AsInSource(fs, EventFor(e, path))
  {
  }

  /** What is made of the content of a directory of the backup is what the source has there. */
  lemma MadeInDir(r: Rules, fs: B.Item, at: Path, es: seq<B.Out>, depth: nat, ev: Event)
    requires fs.DirItem? && B.OneOfEach(fs.children)
    requires B.Lookup(fs, at).Some? && B.Lookup(fs, at).value.DirItem?
    requires B.Mirrors(B.Lookup(fs, at).value.children, es, depth)
    requires ev in EventsAmong(r, Dir([], NodesOf(es)), |es|, at, 0)
    ensures AsInSource(fs, ev)
  {
    hide B.Mirrors, B.MirrorsItem, B.HasEntry, B.Lookup, EventsAmong, AsInSource;
    var rel, e := MadeFromEntry(r, es, [], |es|, at, 0, ev);
    OneOfEachBelow(fs, at);
    B.EntryIsOfItsKind(B.Lookup(fs, at).value, es, depth, rel, e);
    B.LookupJoins(fs, at, rel);
    EventMirrors(fs, e, at + rel, depth + |rel| - 1);
  }

  lemma {:induction false} FindEntry(es: seq<B.Out>, ns: seq<Node>, name: Name) returns (k: nat)
    requires |ns| == |es| && (forall i | 0 <= i < |es| :: ns[i] == NodeOf(es[i])) && R.Find(ns, name).Some?
    ensures k < |es| && es[k].name == name && R.Find(ns, name) == Some(NodeOf(es[k]))
    decreases |es|
  {
    if es[0].name == name {
      k := 0;
    } else {
      k := FindEntry(es[1..], ns[1..], name);
      k := k + 1;
    }
  }

  /** The directory that a subtree leads to is the one the source has there. */
  lemma {:induction false} SubtreeIsSource(item: B.Item, es: seq<B.Out>, depth: nat, more: Path) returns (below: seq<B.Out>)
    requires item.DirItem? && B.OneOfEach(item.children) && B.Mirrors(item.children, es, depth)
    requires R.Below(NodesOf(es), more).Site?
    ensures B.Lookup(item, more).Some? && B.Lookup(item, more).value.DirItem?
    ensures B.Mirrors(B.Lookup(item, more).value.children, below, depth + |more|)
    ensures R.Below(NodesOf(es), more).entries == NodesOf(below)
    decreases |more|
  {
    if more == [] {
      below := es;
    } else {
      var k := FindEntry(es, NodesOf(es), more[0]);
      var i := B.Mirrored(item.children, es, depth, k);
      B.ChildIsUnique(item.children, i);
      below := SubtreeIsSource(item.children[i], es[k].entries, depth + 1, more[1..]);
    }
  }

  /** Where a directory root goes. */
  lemma DirSite(fs: B.Item, t: B.Taken, subtree: Path)
    requires B.Lookup(fs, t.path).Some? && B.Lookup(fs, t.path).value.DirItem? && !Ambiguous(fs, t)
    requires R.SiteOf(RootOf(t), subtree).Site?
    ensures var s := R.SiteOf(RootOf(t), subtree);
            if |subtree| < |t.path| then s.at == t.path && s.entries == NodesOf(t.entries)
            else && t.path <= subtree && s.at == subtree && R.Below(NodesOf(t.entries), subtree[|t.path|..]).Site?
                 && s.entries == R.Below(NodesOf(t.entries), subtree[|t.path|..]).entries
  {
    hide B.Lookup, R.Below;
  }

  lemma EventOfSite(r: Rules, s: R.Site, ev: Event)
    requires ev in R.SiteEvents(r, s)
    ensures s.Site? && ev in EventsAmong(r, Dir([], s.entries), |s.entries|, s.at, 0)
  {
  }

  /** What a restore makes of a root is what the source has at that path, wherever the root lies and whatever is
      selected: for a root that is a directory, and was not taken for a file. */
  lemma DirRootIsSource(r: Rules, o: B.Options, fs: B.Item, t: B.Taken, named: B.Named, subtree: Path, ev: Event)
    requires fs.DirItem? && B.OneOfEach(fs.children)
    requires B.Lookup(fs, t.path).Some? && B.Lookup(fs, t.path).value.DirItem? && B.Faithful(o, fs, t, named)
    requires !Ambiguous(fs, t) && ev in R.SiteEvents(r, R.SiteOf(RootOf(t), subtree))
    ensures AsInSource(fs, ev)
  {
    hide B.TakesNamed, B.TakesLittle, B.TakesPlain, B.TakesReal, B.TakesBelowNamed, B.Mirrors, B.Lookup, EventsAmong, AsInSource;
    hide R.SiteOf, R.SiteEvents, R.Below, Ambiguous, R.Walked, B.OneOfEach;
    EventOfSite(r, R.SiteOf(RootOf(t), subtree), ev);
    DirSite(fs, t, subtree);
    var item := B.Lookup(fs, t.path).value;
    if |subtree| < |t.path| {
      MadeInDir(r, fs, t.path, t.entries, 1, ev);
    } else {
      var more := subtree[|t.path|..];
      OneOfEachBelow(fs, t.path);
      var below := SubtreeIsSource(item, t.entries, 1, more);
      assert t.path + more == subtree;
      B.LookupJoins(fs, t.path, more);
      MadeInDir(r, fs, subtree, below, 1 + |more|, ev);
    }
  }

  /** A single entry with the name of its root goes one level up, to the path of the root. */
  lemma OneLevelUp(r: Rules, t: B.Taken, subtree: Path, ev: Event)
    requires t.path != [] && |t.entries| == 1 && !t.entries[0].OutDir? && t.entries[0].name == t.path[|t.path| - 1]
    requires ev in R.SiteEvents(r, R.SiteOf(RootOf(t), subtree))
    ensures ev == EventFor(t.entries[0], t.path)
  {
    hide EventsAmong;
    var above, last := t.path[..|t.path| - 1], t.path[|t.path| - 1];
    var rel, e := MadeFromEntry(r, t.entries, [], 1, above, 0, ev);
    assert rel == [last] && e == t.entries[0] by {
      if |rel| == 1 {
        assert rel == [rel[0]];
      }
    }
    assert above + [last] == t.path;
  }

  lemma FileRootIsSource(r: Rules, o: B.Options, fs: B.Item, t: B.Taken, named: B.Named, subtree: Path, ev: Event)
    requires fs.DirItem?
    requires B.Lookup(fs, t.path).Some? && !B.Lookup(fs, t.path).value.DirItem? && B.Faithful(o, fs, t, named)
    requires ev in R.SiteEvents(r, R.SiteOf(RootOf(t), subtree))
    ensures ev == EventFor(t.entries[0], t.path) && AsInSource(fs, ev)
  {
    hide B.Lookup, AsInSource, R.SiteOf, R.SiteEvents;
    OneLevelUp(r, t, subtree, ev);
    EventMirrors(fs, t.entries[0], t.path, 1);
  }

  lemma {:induction false} EventOfSome(r: Rules, ss: seq<R.Site>, ev: Event) returns (i: nat)
    requires ev in R.AllEvents(r, ss)
    ensures i < |ss| && ev in R.SiteEvents(r, ss[i])
    decreases |ss|
  {
    hide R.SiteEvents;
    if ev in R.SiteEvents(r, ss[|ss| - 1]) {
      i := |ss| - 1;
    } else {
      i := EventOfSome(r, ss[..|ss| - 1], ev);
    }
  }

  /** Whatever is restored, with any selection and any subtree, was in the source at the same path, and was the same
      kind of thing. */
  lemma RestoredWhereItWas(r: Rules, o: B.Options, fs: B.Item, ts: seq<B.Taken>, nameds: seq<B.Named>, subtree: Path,
                           sum: R.Summary, ev: Event)
    requires BackedUp(o, fs, ts, nameds) && forall i | 0 <= i < |ts| :: !Ambiguous(fs, ts[i])
    requires R.Answer(r, SnapshotOf(ts), subtree, Ok(sum)) && ev in sum.log
    ensures AsInSource(fs, ev)
  {
    hide R.SiteEvents, R.SiteOf, R.AllEvents, R.Accepted, B.Faithful, AsInSource, Ambiguous, B.Lookup;
    var ss := R.Sites(SnapshotOf(ts), subtree);
    var i := EventOfSome(r, ss, ev);
    if B.Lookup(fs, ts[i].path).value.DirItem? {
      DirRootIsSource(r, o, fs, ts[i], nameds[i], subtree, ev);
    } else {
      FileRootIsSource(r, o, fs, ts[i], nameds[i], subtree, ev);
    }
  }

  // ---------- everything comes back ----------

  /** A restore of all there is. */
  predicate WithoutRules(r: Rules) {
    r.includes == [] && r.excludes == []
  }

  lemma {:induction false} AllSelected(r: Rules, path: Path)
    requires WithoutRules(r)
    ensures Selected(r, path) && !ExcludedAt(r, path)
    decreases |path|
  {
    if path != [] {
      AllSelected(r, path[..|path| - 1]);
    }
  }

  /** No directory is nested deeper than a reader goes. */
  ghost predicate Shallow(es: seq<B.Out>, depth: nat) {
    forall k | 0 <= k < |es| && es[k].OutDir? :: depth < MAX_TREE_DEPTH && Shallow(es[k].entries, depth + 1)
  }

  lemma {:induction false} MirrorsIsShallow(items: seq<B.Item>, es: seq<B.Out>, depth: nat)
    requires B.Mirrors(items, es, depth)
    ensures Shallow(es, depth)
    decreases es
  {
    forall k | 0 <= k < |es| && es[k].OutDir? ensures depth < MAX_TREE_DEPTH && Shallow(es[k].entries, depth + 1) {
      var i := B.Mirrored(items, es, depth, k);
      MirrorsIsShallow(items[i].children, es[k].entries, depth + 1);
    }
  }

  lemma {:induction false} MadeAmong(r: Rules, dir: Node, n: nat, k: nat, path: Path, depth: nat, ev: Event)
    requires dir.Dir? && k < n <= |dir.children|
    requires ev in Events(r, dir.children[k], path + [dir.children[k].name], depth + 1)
    ensures ev in EventsAmong(r, dir, n, path, depth)
    decreases n
  {
    hide Events;
    if k < n - 1 {
      MadeAmong(r, dir, n - 1, k, path, depth, ev);
    }
  }

  lemma {:induction false} EntryIsMade(r: Rules, es: seq<B.Out>, name: Name, path: Path, depth: nat, rel: Path, e: B.Out)
    requires WithoutRules(r) && B.HasEntry(es, rel, e) && Shallow(es, depth + 1)
    ensures EventFor(e, path + rel) in EventsAmong(r, Dir(name, NodesOf(es)), |es|, path, depth)
    decreases |rel|, 1
  {
    hide Events;
    var k :| 0 <= k < |es| && B.HasEntryAt(es[k], rel, e);
    OneIsMade(r, es[k], path, depth + 1, rel, e);
    MadeAmong(r, Dir(name, NodesOf(es)), |es|, k, path, depth, EventFor(e, path + rel));
  }

  lemma {:induction false} OneIsMade(r: Rules, c: B.Out, path: Path, depth: nat, rel: Path, e: B.Out)
    requires WithoutRules(r) && rel != [] && B.HasEntryAt(c, rel, e)
    requires c.OutDir? ==> depth < MAX_TREE_DEPTH && Shallow(c.entries, depth + 1)
    ensures EventFor(e, path + rel) in Events(r, NodeOf(c), path + [c.name], depth)
    decreases |rel|, 0
  {
    hide EventsAmong;
    var at := path + [c.name];
    AllSelected(r, at);
    assert c.OutDir? ==> at in Chosen(r, NodeOf(c), at, depth);
    if |rel| == 1 {
      assert rel == [c.name];
    } else {
      EntryIsMade(r, c.entries, c.name, at, depth, rel[1..], e);
      assert path + rel == at + rel[1..];
    }
  }

  lemma {:induction false} SomeOfAll(r: Rules, ss: seq<R.Site>, i: nat, ev: Event)
    requires i < |ss| && ev in R.SiteEvents(r, ss[i])
    ensures ev in R.AllEvents(r, ss)
    decreases |ss|
  {
    hide R.SiteEvents;
    if i < |ss| - 1 {
      SomeOfAll(r, ss[..|ss| - 1], i, ev);
    }
  }

  /** Without rules every root is walked. */
  lemma SiteIsWalked(r: Rules, s: R.Site)
    requires WithoutRules(r) && s.Site?
    ensures R.SiteEvents(r, s) == EventsAmong(r, Dir([], s.entries), |s.entries|, s.at, 0)
  {
    forall path ensures Selected(r, path) && !ExcludedAt(r, path) {
      AllSelected(r, path);
    }
  }

  /** Every entry of a directory root is made at its own path. */
  lemma DirRootComesBack(r: Rules, o: B.Options, fs: B.Item, t: B.Taken, named: B.Named, rel: Path, e: B.Out)
    requires WithoutRules(r) && B.Lookup(fs, t.path).Some? && B.Lookup(fs, t.path).value.DirItem? && B.Faithful(o, fs, t, named)
    requires !Ambiguous(fs, t) && B.HasEntry(t.entries, rel, e)
    ensures EventFor(e, t.path + rel) in R.SiteEvents(r, R.SiteOf(RootOf(t), []))
  {
    hide B.TakesNamed, B.TakesLittle, B.TakesPlain, B.TakesReal, B.TakesBelowNamed, B.Mirrors, B.Lookup, EventsAmong, R.SiteEvents, B.HasEntry;
    hide Shallow;
    var s := R.SiteOf(RootOf(t), []);
    SiteIsWalked(r, s);
    MirrorsIsShallow(B.Lookup(fs, t.path).value.children, t.entries, 1);
    EntryIsMade(r, t.entries, [], t.path, 0, rel, e);
  }

  /** The one entry of a root that is a file is made at the path of the root. */
  lemma FileRootComesBack(r: Rules, o: B.Options, fs: B.Item, t: B.Taken, named: B.Named)
    requires WithoutRules(r) && B.Lookup(fs, t.path).Some? && !B.Lookup(fs, t.path).value.DirItem? && B.Faithful(o, fs, t, named)
    ensures EventFor(t.entries[0], t.path) in R.SiteEvents(r, R.SiteOf(RootOf(t), []))
  {
    hide B.Lookup, EventsAmong, R.SiteEvents;
    var s := R.SiteOf(RootOf(t), []);
    SiteIsWalked(r, s);
    var above, last := t.path[..|t.path| - 1], t.path[|t.path| - 1];
    assert B.HasEntryAt(t.entries[0], [last], t.entries[0]);
    assert above + [last] == t.path;
    EntryIsMade(r, t.entries, [], above, 0, [last], t.entries[0]);
  }

  /** A restore of everything makes every entry of every root at the path it was taken from. */
  lemma EverythingComesBack(r: Rules, o: B.Options, fs: B.Item, ts: seq<B.Taken>, nameds: seq<B.Named>, sum: R.Summary, i: nat)
    requires WithoutRules(r) && BackedUp(o, fs, ts, nameds) && i < |ts| && !Ambiguous(fs, ts[i])
    requires R.Answer(r, SnapshotOf(ts), [], Ok(sum))
    ensures if B.Lookup(fs, ts[i].path).value.DirItem?
            then forall rel, e | B.HasEntry(ts[i].entries, rel, e) :: EventFor(e, ts[i].path + rel) in sum.log
            else |ts[i].entries| == 1 && EventFor(ts[i].entries[0], ts[i].path) in sum.log
  {
    hide R.SiteEvents, R.SiteOf, R.AllEvents, R.Accepted, B.Lookup, Ambiguous, B.HasEntry;
    hide B.TakesNamed, B.TakesLittle, B.TakesPlain, B.TakesReal, B.TakesBelowNamed, B.Mirrors;
    var ss := R.Sites(SnapshotOf(ts), []);
    if B.Lookup(fs, ts[i].path).value.DirItem? {
      forall rel, e | B.HasEntry(ts[i].entries, rel, e) ensures EventFor(e, ts[i].path + rel) in sum.log {
        DirRootComesBack(r, o, fs, ts[i], nameds[i], rel, e);
        SomeOfAll(r, ss, i, EventFor(e, ts[i].path + rel));
      }
    } else {
      FileRootComesBack(r, o, fs, ts[i], nameds[i]);
      SomeOfAll(r, ss, i, EventFor(ts[i].entries[0], ts[i].path));
    }
  }

  /** Restored alone, a root that is a directory comes back where it was, exactly if it cannot be taken for a file. */
  lemma DirComesBackIff(r: Rules, o: B.Options, fs: B.Item, t: B.Taken, named: B.Named, sum: R.Summary)
    requires WithoutRules(r) && BackedUp(o, fs, [t], [named])
    requires B.Lookup(fs, t.path).Some? && B.Lookup(fs, t.path).value.DirItem?
    requires R.Answer(r, SnapshotOf([t]), [], Ok(sum))
    ensures (forall rel, e | B.HasEntry(t.entries, rel, e) :: EventFor(e, t.path + rel) in sum.log) <==> !Ambiguous(fs, t)
  {
    hide R.SiteEvents, R.AllEvents, R.Accepted, B.Lookup, B.Faithful, R.SiteOf;
    if !Ambiguous(fs, t) {
      EverythingComesBack(r, o, fs, [t], [named], sum, 0);
    } else {
      var last, e := t.path[|t.path| - 1], t.entries[0];
      assert B.HasEntryAt(t.entries[0], [last], e) && B.HasEntry(t.entries, [last], e);
      if EventFor(e, t.path + [last]) in sum.log {
        var i := EventOfSome(r, R.Sites(SnapshotOf([t]), []), EventFor(e, t.path + [last]));
        OneLevelUp(r, t, [], EventFor(e, t.path + [last]));
      }
    }
  }
}
