/** What a backup takes: its roots, and the walk through each of them (backup.rs). */
module SourceWalk {
  import opened Limits
  import opened Wrappers
  import opened Glob
  import opened PathFiltering
  import S = Segments

  // ---------- the roots ----------

  const SLASH: Byte := 0x2F

  /** The components, each after a slash. */
  function BytesOf(path: Path): Name {
    if path == [] then [] else BytesOf(path[..|path| - 1]) + [SLASH] + path[|path| - 1]
  }

  lemma {:induction false} AncestorsSortFirst(a: Path, b: Path)
    requires a < b
    ensures BytesOf(a) < BytesOf(b) && S.Less(BytesOf(a), BytesOf(b))
    decreases |b|
  {
    var front := b[..|b| - 1];
    if front != a {
      assert a < front;
      AncestorsSortFirst(a, front);
    }
    assert BytesOf(b) == BytesOf(front) + ([SLASH] + b[|b| - 1]);
    S.PrefixIsLess(BytesOf(a), BytesOf(b));
  }

  /** A root with the paths inside it that were named as well, relative to it. */
  datatype Root = Root(path: Path, named: seq<Path>)

  ghost predicate Ordered(paths: seq<Path>) {
    forall i, j | 0 <= i < j < |paths| :: S.Less(BytesOf(paths[i]), BytesOf(paths[j]))
  }

  /** No root lies inside another, or is another. */
  ghost predicate Antichain(roots: seq<Root>) {
    forall i, j | 0 <= i < |roots| && 0 <= j < |roots| && i != j :: !(roots[i].path <= roots[j].path)
  }

  /** The path is a root, or named inside one. */
  ghost predicate Covered(roots: seq<Root>, path: Path) {
    exists i :: 0 <= i < |roots| && (roots[i].path == path || exists n :: n in roots[i].named && n != [] && roots[i].path + n == path)
  }

  /** Nothing but the given paths. */
  ghost predicate OnlyGiven(roots: seq<Root>, paths: seq<Path>) {
    forall i | 0 <= i < |roots| :: roots[i].path in paths && forall n | n in roots[i].named :: n != [] && roots[i].path + n in paths
  }

  /** The nearest root above the path. */
  method OuterOf(roots: seq<Root>, path: Path) returns (outer: Option<nat>)
    ensures outer.Some? ==> outer.value < |roots| && roots[outer.value].path < path
    ensures outer.None? ==> forall i | 0 <= i < |roots| :: !(roots[i].path < path)
  {
    var k := |path|;
    while k > 0
      invariant 0 <= k <= |path|
      invariant forall i | 0 <= i < |roots| && roots[i].path < path :: |roots[i].path| < k
    {
      k := k - 1;
      for i := 0 to |roots|
        invariant forall j | 0 <= j < i :: roots[j].path != path[..k]
      {
        if roots[i].path == path[..k] {
          return Some(i);
        }
      }
      forall i | 0 <= i < |roots| && roots[i].path < path ensures |roots[i].path| < k {
        assert roots[i].path == path[..|roots[i].path|];
      }
    }
    outer := None;
  }

  lemma CoverGrows(roots: seq<Root>, more: seq<Root>, path: Path)
    requires Covered(roots, path) && |roots| <= |more|
    requires forall i | 0 <= i < |roots| :: more[i].path == roots[i].path && roots[i].named <= more[i].named
    ensures Covered(more, path)
  {
    var i :| 0 <= i < |roots| && (roots[i].path == path || exists n :: n in roots[i].named && n != [] && roots[i].path + n == path);
    if roots[i].path != path {
      var n :| n in roots[i].named && n != [] && roots[i].path + n == path;
      assert n in more[i].named;
    }
  }

  lemma PathJoins(roots: seq<Root>, i: nat, rel: Path, paths: seq<Path>)
    requires Antichain(roots) && OnlyGiven(roots, paths) && i < |roots| && rel != []
    ensures var roots' := roots[i := roots[i].(named := roots[i].named + [rel])];
            var path := roots[i].path + rel;
            && Antichain(roots') && OnlyGiven(roots', paths + [path]) && Covered(roots', path)
            && forall p | Covered(roots, p) :: Covered(roots', p)
  {
    var roots' := roots[i := roots[i].(named := roots[i].named + [rel])];
    forall p | Covered(roots, p) ensures Covered(roots', p) {
      CoverGrows(roots, roots', p);
    }
    assert rel in roots'[i].named;
    forall k | 0 <= k < |roots'| ensures roots'[k].path in paths {
      assert roots'[k].path == roots[k].path;
    }
  }

  lemma PathStarts(roots: seq<Root>, path: Path, paths: seq<Path>)
    requires Antichain(roots) && OnlyGiven(roots, paths)
    requires forall i | 0 <= i < |roots| :: !(path <= roots[i].path) && !(roots[i].path < path)
    ensures var roots' := roots + [Root(path, [])];
            && Antichain(roots') && OnlyGiven(roots', paths + [path]) && Covered(roots', path)
            && forall p | Covered(roots, p) :: Covered(roots', p)
  {
    var roots' := roots + [Root(path, [])];
    forall p | Covered(roots, p) ensures Covered(roots', p) {
      CoverGrows(roots, roots', p);
    }
    assert roots'[|roots|].path == path;
    forall i | 0 <= i < |roots| ensures !(roots[i].path <= path) {
      SameLength(roots[i].path, path);
    }
  }

  lemma SameLength(a: Path, b: Path)
    ensures a <= b ==> a == b || a < b
  {
  }

  /** Sorted and deduplicated paths become roots; a path inside an earlier one joins it. */
  method MergeRoots(paths: seq<Path>) returns (roots: seq<Root>)
    requires Ordered(paths)
    ensures Antichain(roots) && OnlyGiven(roots, paths) && forall p | p in paths :: Covered(roots, p)
  {
    hide Antichain, Covered, BytesOf, Ordered;
    roots := [];
    assert Antichain(roots) by { NoRoots(); }
    for k := 0 to |paths|
      invariant Antichain(roots) && OnlyGiven(roots, paths[..k])
      invariant forall p | p in paths[..k] :: Covered(roots, p)
    {
      var path := paths[k];
      assert paths[..k + 1] == paths[..k] + [path];
      forall i | 0 <= i < |roots| ensures !(path <= roots[i].path) {
        NotAbove(paths, k, roots[i].path);
      }
      var outer := OuterOf(roots, path);
      if outer.Some? {
        var i := outer.value;
        var rel := path[|roots[i].path|..];
        assert roots[i].path + rel == path;
        PathJoins(roots, i, rel, paths[..k]);
        roots := roots[i := roots[i].(named := roots[i].named + [rel])];
      } else {
        PathStarts(roots, path, paths[..k]);
        roots := roots + [Root(path, [])];
      }
    }
    assert paths[..|paths|] == paths;
  }

  lemma NoRoots()
    ensures Antichain([])
  {
  }

  /** A path that comes later in the order does not lie above an earlier one. */
  lemma NotAbove(paths: seq<Path>, k: nat, earlier: Path)
    requires Ordered(paths) && k < |paths| && earlier in paths[..k]
    ensures !(paths[k] <= earlier)
  {
    var i :| 0 <= i < k && paths[i] == earlier;
    S.LessIsTotal(BytesOf(earlier), BytesOf(paths[k]));
    assert S.Less(BytesOf(paths[i]), BytesOf(paths[k]));
    SameLength(paths[k], earlier);
    if paths[k] < earlier {
      AncestorsSortFirst(paths[k], earlier);
    }
  }

  /** Names hold no slash. */
  ghost predicate SlashFree(path: Path) {
    forall name | name in path :: SLASH !in name
  }

  lemma NoLaterSlash(x: Name, n: Name)
    requires SLASH !in n
    ensures forall k | |x| < k < |x + [SLASH] + n| :: (x + [SLASH] + n)[k] != SLASH
  {
    forall k | |x| < k < |x + [SLASH] + n| ensures (x + [SLASH] + n)[k] != SLASH {
      assert (x + [SLASH] + n)[k] == n[k - |x| - 1];
    }
  }

  lemma LastNameMatches(x: Name, n: Name, y: Name, m: Name)
    requires SLASH !in n && SLASH !in m && x + [SLASH] + n == y + [SLASH] + m
    ensures x == y && n == m
  {
    var all := x + [SLASH] + n;
    assert |all| == |y| + 1 + |m| && all[|x|] == SLASH && all[|y|] == SLASH;
    assert all[..|x|] == x && all[|x| + 1..] == n && all[..|y|] == y && all[|y| + 1..] == m;
    NoLaterSlash(x, n);
    NoLaterSlash(y, m);
    assert |x| == |y|;
  }

  lemma {:induction false} BytesAreDistinct(a: Path, b: Path)
    requires SlashFree(a) && SlashFree(b) && BytesOf(a) == BytesOf(b)
    ensures a == b
    decreases |a|
  {
    if a != [] && b != [] {
      var n, m := a[|a| - 1], b[|b| - 1];
      assert n in a && m in b;
      LastNameMatches(BytesOf(a[..|a| - 1]), n, BytesOf(b[..|b| - 1]), m);
      BytesAreDistinct(a[..|a| - 1], b[..|b| - 1]);
      assert a == a[..|a| - 1] + [n] && b == b[..|b| - 1] + [m];
    }
  }

  lemma OrderedCons(path: Path, paths: seq<Path>)
    requires Ordered(paths) && (paths != [] ==> S.Less(BytesOf(path), BytesOf(paths[0])))
    ensures Ordered([path] + paths)
  {
    forall j | 0 <= j < |paths| ensures S.Less(BytesOf(path), BytesOf(paths[j])) {
      if j > 0 {
        S.LessIsTransitive(BytesOf(path), BytesOf(paths[0]), BytesOf(paths[j]));
      }
    }
  }

  function InsertPath(path: Path, paths: seq<Path>): (out: seq<Path>)
    ensures forall p :: p in out <==> p == path || p in paths
    ensures paths != [] && out != [] ==> out[0] == path || out[0] == paths[0]
  {
    if paths == [] || S.Less(BytesOf(path), BytesOf(paths[0])) then [path] + paths
    else if path == paths[0] then paths
    else
      assert paths == [paths[0]] + paths[1..];
      [paths[0]] + InsertPath(path, paths[1..])
  }

  lemma {:induction false} InsertKeepsOrder(path: Path, paths: seq<Path>)
    requires Ordered(paths) && SlashFree(path) && forall p | p in paths :: SlashFree(p)
    ensures Ordered(InsertPath(path, paths))
    decreases |paths|
  {
    hide BytesOf;
    if paths == [] || S.Less(BytesOf(path), BytesOf(paths[0])) {
      OrderedCons(path, paths);
    } else if path != paths[0] {
      S.LessIsTotal(BytesOf(path), BytesOf(paths[0]));
      if BytesOf(path) == BytesOf(paths[0]) {
        BytesAreDistinct(path, paths[0]);
      }
      var rest := InsertPath(path, paths[1..]);
      InsertKeepsOrder(path, paths[1..]);
      assert rest != [] by { assert path in rest; }
      OrderedCons(paths[0], rest);
    }
  }

  /** `sort` and `dedup` */
  function SortPaths(paths: seq<Path>): (out: seq<Path>)
    requires forall p | p in paths :: SlashFree(p)
    ensures Ordered(out) && forall p :: p in out <==> p in paths
  {
    if paths == [] then []
    else
      assert paths == [paths[0]] + paths[1..];
      InsertKeepsOrder(paths[0], SortPaths(paths[1..]));
      InsertPath(paths[0], SortPaths(paths[1..]))
  }

  /** The roots of a backup, from the paths in any order. */
  method RootsOf(paths: seq<Path>) returns (roots: seq<Root>)
    requires forall p | p in paths :: SlashFree(p)
    ensures Antichain(roots) && OnlyGiven(roots, paths) && forall p | p in paths :: Covered(roots, p)
  {
    hide Antichain, Covered, Ordered;
    roots := MergeRoots(SortPaths(paths));
  }

  // ---------- named paths inside a root ----------

  /** The named paths, and every directory on the way to one. */
  datatype Named = Named(paths: set<Path>, toward: set<Path>) {
    ghost predicate Valid() {
      forall p :: p in toward <==> p != [] && exists n :: n in paths && p < n
    }
  }

  /** `Named::new`: each path is cut at its last slash until none is left. */
  method NameAll(paths: seq<Path>) returns (named: Named)
    ensures named.Valid() && forall p :: p in named.paths <==> p in paths
  {
    var all: set<Path>, toward: set<Path> := {}, {};
    for i := 0 to |paths|
      invariant forall p :: p in all <==> p in paths[..i]
      invariant forall p :: p in toward <==> p != [] && exists n :: n in paths[..i] && p < n
    {
      var path := paths[i];
      assert paths[..i + 1] == paths[..i] + [path];
      ghost var before := toward;
      var at := path;
      while |at| > 1
        invariant at <= path
        invariant forall p :: p in toward <==> p in before || (p != [] && |at| <= |p| && p < path)
      {
        at := at[..|at| - 1];
        toward := toward + {at};
        forall p ensures p in toward <==> p in before || (p != [] && |at| <= |p| && p < path) {
          if p < path && |p| == |at| {
            assert p == path[..|p|] == at;
          }
        }
      }
      all := all + {path};
    }
    assert paths[..|paths|] == paths;
    named := Named(all, toward);
  }

  // ---------- the walk ----------

  datatype Item =
    | DirItem(name: Name, device: nat, children: seq<Item>)
    | FileItem(name: Name, device: nat, size: nat)
    | LinkItem(name: Name)

  datatype Out = OutDir(name: Name, entries: seq<Out>) | OutFile(name: Name) | OutLink(name: Name)

  /** The exclusion rules as they apply in the root at `at`: patterns are matched against whole paths. All other paths
      in this section are relative to the root. `markers` says which marker files are found in the directory with
      that whole path. */
  datatype Exclusions = Exclusions(at: Path, patterns: seq<Pattern>, cases: CaseTable, largerThan: Option<nat>,
                                   markers: Path -> Option<set<Name>>)

  datatype Visit = Visit(depth: nat, filter: FilterState, bound: Option<nat>, passThrough: bool)

  /** `path` is there, below a directory at depth `depth` (0 for a root), and no directory on it is too deep to be read
      back. */
  ghost predicate Present(items: seq<Item>, path: Path, depth: nat)
    decreases |path|
  {
    path != [] && exists i :: 0 <= i < |items| && PresentAt(items[i], path, depth)
  }

  ghost predicate PresentAt(item: Item, path: Path, depth: nat)
    requires path != []
    decreases |path|, 0
  {
    && item.name == path[0]
    && (item.DirItem? ==> depth + 1 < MAX_TREE_DEPTH)
    && (|path| == 1 || (item.DirItem? && Present(item.children, path[1..], depth + 1)))
  }

  ghost predicate InOut(out: seq<Out>, path: Path)
    decreases |path|
  {
    path != [] && exists i :: 0 <= i < |out| && InOutAt(out[i], path)
  }

  ghost predicate InOutAt(entry: Out, path: Path)
    requires path != []
    decreases |path|, 0
  {
    entry.name == path[0] && (|path| == 1 || (entry.OutDir? && InOut(entry.entries, path[1..])))
  }

  /** A pattern matches the item at `path`, or it lies beside a marker file. */
  ghost predicate Cut(x: Exclusions, path: Path) {
    path != [] &&
    (Decision(x.patterns, x.at + path, x.cases) == Some(true)
     || (x.markers(x.at + path[..|path| - 1]).Some? && path[|path| - 1] !in x.markers(x.at + path[..|path| - 1]).value))
  }

  /** The item is named, lies on the way to a named one, or below one that `path` has beyond its first `j` names. */
  ghost predicate OnTheWay(named: Named, path: Path, j: nat) {
    || (exists n :: n in named.paths && path <= n)
    || (exists i :: j < i <= |path| && path[..i] in named.paths)
  }

  /** Every named path below `rel` that is there is taken. */
  ghost predicate TakesNamed(named: Named, rel: Path, items: seq<Item>, out: seq<Out>) {
    forall p | rel + p in named.paths && Present(items, p, |rel|) :: InOut(out, p)
  }

  /** The item lies on another file system than the one the walk keeps to; a named item does not count. */
  ghost predicate Beyond(named: Named, item: Item, rel: Path, bound: Option<nat>) {
    !item.LinkItem? && bound.Some? && item.device != bound.value && rel + [item.name] !in named.paths
  }

  /** A named item carries the boundary to its own file system. */
  function BoundIn(named: Named, item: Item, rel: Path, bound: Option<nat>): Option<nat> {
    if item.DirItem? && rel + [item.name] in named.paths && bound.Some? then Some(item.device) else bound
  }

  /** `path` is there, however deep; beyond the boundary it is a directory kept empty, or on the way to a named path,
      or in one. */
  ghost predicate There(named: Named, items: seq<Item>, rel: Path, bound: Option<nat>, path: Path)
    decreases |path|
  {
    path != [] && exists i :: 0 <= i < |items| && ThereAt(named, items[i], rel, bound, path)
  }

  ghost predicate ThereAt(named: Named, item: Item, rel: Path, bound: Option<nat>, path: Path)
    requires path != []
    decreases |path|, 0
  {
    && item.name == path[0]
    && (Beyond(named, item, rel, bound) ==>
          if |path| == 1 then item.DirItem? else OnTheWay(named, rel + path, |rel| + 1))
    && (|path| > 1 ==>
          item.DirItem? && There(named, item.children, rel + [item.name], BoundIn(named, item, rel, bound), path[1..]))
  }

  /** Nothing is taken that is not there, and nothing from beyond the boundary but the way to named paths. */
  ghost predicate TakesReal(named: Named, rel: Path, items: seq<Item>, bound: Option<nat>, out: seq<Out>) {
    forall p | InOut(out, p) :: There(named, items, rel, bound, p)
  }

  ghost predicate TakesRealOf(named: Named, rel: Path, item: Item, bound: Option<nat>, out: seq<Out>) {
    forall p | InOut(out, p) :: p != [] && ThereAt(named, item, rel, bound, p)
  }

  lemma RealGrows(named: Named, rel: Path, items: seq<Item>, item: Item, bound: Option<nat>, out: seq<Out>, more: seq<Out>)
    requires TakesReal(named, rel, items, bound, out) && TakesRealOf(named, rel, item, bound, more)
    ensures TakesReal(named, rel, items + [item], bound, out + more)
  {
    OutGrows(out, more);
    forall p | InOut(out + more, p) ensures There(named, items + [item], rel, bound, p) {
      if InOut(out, p) {
        var i :| 0 <= i < |items| && ThereAt(named, items[i], rel, bound, p);
        assert ThereAt(named, (items + [item])[i], rel, bound, p);
      } else {
        assert ThereAt(named, (items + [item])[|items|], rel, bound, p);
      }
    }
  }

  lemma RealLeaf(named: Named, rel: Path, item: Item, bound: Option<nat>, entry: Out)
    requires entry.name == item.name && (entry.OutDir? ==> entry.entries == [])
    requires Beyond(named, item, rel, bound) ==> item.DirItem?
    ensures TakesRealOf(named, rel, item, bound, [entry])
  {
    forall p | InOut([entry], p) ensures p != [] && ThereAt(named, item, rel, bound, p) {
      InOne(entry, p);
      if |p| > 1 {
        NothingIn(p[1..]);
      }
    }
  }

  lemma RealDir(x: Exclusions, named: Named, rel: Path, item: Item, bound: Option<nat>, inside: bool, entries: seq<Out>)
    requires item.DirItem? && TakesLittle(x, named, rel + [item.name], inside, entries)
    requires TakesReal(named, rel + [item.name], item.children, BoundIn(named, item, rel, bound), entries)
    requires Beyond(named, item, rel, bound) ==> inside
    ensures TakesRealOf(named, rel, item, bound, [OutDir(item.name, entries)])
  {
    forall p | InOut([OutDir(item.name, entries)], p) ensures p != [] && ThereAt(named, item, rel, bound, p) {
      InOne(OutDir(item.name, entries), p);
      if |p| > 1 {
        assert rel + p == (rel + [item.name]) + p[1..];
      }
    }
  }

  lemma RealNothing(named: Named, rel: Path, bound: Option<nat>)
    ensures TakesReal(named, rel, [], bound, []) && forall item :: TakesRealOf(named, rel, item, bound, [])
  {
  }

  /** Below something that is cut off, and in a directory entered only to pass through, there is nothing but
      the way to named paths and what they contain. */
  ghost predicate TakesLittle(x: Exclusions, named: Named, rel: Path, passThrough: bool, out: seq<Out>) {
    forall p | InOut(out, p) ::
      && (passThrough ==> OnTheWay(named, rel + p, |rel|))
      && forall j | |rel| < j <= |rel + p| && Cut(x, (rel + p)[..j]) && (rel + p)[..j] !in named.paths ::
           OnTheWay(named, rel + p, j)
  }

  /** No rule speaks against the item at `path`, nor against a directory on the way to it. */
  ghost predicate Plain(x: Exclusions, items: seq<Item>, rel: Path, bound: Option<nat>, path: Path)
    decreases |path|
  {
    path != [] && exists i :: 0 <= i < |items| && PlainAt(x, items[i], rel, bound, path)
  }

  ghost predicate PlainAt(x: Exclusions, item: Item, rel: Path, bound: Option<nat>, path: Path)
    requires path != []
    decreases |path|, 0
  {
    && item.name == path[0] && !Cut(x, rel + [item.name])
    && (bound.Some? && !item.LinkItem? ==> item.device == bound.value)
    && (item.FileItem? && x.largerThan.Some? ==> item.size <= x.largerThan.value)
    && (item.DirItem? ==> |rel| + 1 < MAX_TREE_DEPTH)
    && (|path| > 1 ==> item.DirItem? && Plain(x, item.children, rel + [item.name], bound, path[1..]))
  }

  /** Whatever no rule speaks against is taken. */
  ghost predicate TakesPlain(x: Exclusions, rel: Path, items: seq<Item>, bound: Option<nat>, passThrough: bool, out: seq<Out>) {
    !passThrough ==> forall p | Plain(x, items, rel, bound, p) :: InOut(out, p)
  }

  ghost predicate TakesPlainOf(x: Exclusions, rel: Path, item: Item, bound: Option<nat>, passThrough: bool, out: seq<Out>) {
    !passThrough ==> forall p | p != [] && PlainAt(x, item, rel, bound, p) :: InOut(out, p)
  }

  /** No rule speaks against the item at `path` from a named directory on down; `bounded`: the walk keeps to one file
      system, which below a named directory is its own. */
  ghost predicate PlainBelowNamed(x: Exclusions, named: Named, items: seq<Item>, rel: Path, bounded: bool, path: Path)
    decreases |path|
  {
    path != [] && exists i :: 0 <= i < |items| && PlainBelowNamedAt(x, named, items[i], rel, bounded, path)
  }

  ghost predicate PlainBelowNamedAt(x: Exclusions, named: Named, item: Item, rel: Path, bounded: bool, path: Path)
    requires path != []
    decreases |path|, 0
  {
    && item.name == path[0] && |path| > 1 && item.DirItem? && |rel| + 1 < MAX_TREE_DEPTH
    && var child := rel + [item.name];
       || (child in named.paths
           && Plain(x, item.children, child, if bounded then Some(item.device) else None, path[1..]))
       || PlainBelowNamed(x, named, item.children, child, bounded, path[1..])
  }

  /** A named directory is taken with its content, wherever it lies. */
  ghost predicate TakesBelowNamed(x: Exclusions, named: Named, rel: Path, items: seq<Item>, bounded: bool, out: seq<Out>) {
    forall p | PlainBelowNamed(x, named, items, rel, bounded, p) :: InOut(out, p)
  }

  ghost predicate TakesBelowNamedOf(x: Exclusions, named: Named, rel: Path, item: Item, bounded: bool, out: seq<Out>) {
    forall p | p != [] && PlainBelowNamedAt(x, named, item, rel, bounded, p) :: InOut(out, p)
  }

  lemma {:induction false} BelowNamedIsOnTheWay(x: Exclusions, named: Named, item: Item, rel: Path, bounded: bool, path: Path)
    requires path != [] && named.Valid() && PlainBelowNamedAt(x, named, item, rel, bounded, path)
    ensures rel + [item.name] in named.paths || rel + [item.name] in named.toward
    decreases |path|
  {
    var child := rel + [item.name];
    if child !in named.paths {
      var i :| 0 <= i < |item.children| && PlainBelowNamedAt(x, named, item.children[i], child, bounded, path[1..]);
      BelowNamedIsOnTheWay(x, named, item.children[i], child, bounded, path[1..]);
      var below := child + [item.children[i].name];
      if below in named.toward {
        var n :| n in named.paths && below < n;
        assert child < n;
      } else {
        assert child < below;
      }
    }
  }

  /** An item that may be left out or kept empty has no content of a named directory in it. */
  lemma NothingBelowNamed(x: Exclusions, named: Named, rel: Path, item: Item, bounded: bool, out: seq<Out>)
    requires named.Valid()
    requires !item.DirItem? || |rel| + 1 >= MAX_TREE_DEPTH
             || (rel + [item.name] !in named.paths && rel + [item.name] !in named.toward)
    ensures TakesBelowNamedOf(x, named, rel, item, bounded, out)
  {
    forall p: Path | p != [] ensures !PlainBelowNamedAt(x, named, item, rel, bounded, p) {
      if PlainBelowNamedAt(x, named, item, rel, bounded, p) {
        BelowNamedIsOnTheWay(x, named, item, rel, bounded, p);
        assert false;
      }
    }
  }

  lemma DirBelowNamed(x: Exclusions, named: Named, rel: Path, item: Item, bound: Option<nat>, inside: bool, entries: seq<Out>)
    requires item.DirItem?
    requires var child, within := rel + [item.name], BoundIn(named, item, rel, bound);
             && TakesBelowNamed(x, named, child, item.children, bound.Some?, entries)
             && TakesPlain(x, child, item.children, within, inside, entries)
             && (child in named.paths ==> !inside)
    ensures TakesBelowNamedOf(x, named, rel, item, bound.Some?, [OutDir(item.name, entries)])
  {
    hide Plain, PlainBelowNamed;
    forall p | p != [] && PlainBelowNamedAt(x, named, item, rel, bound.Some?, p) ensures InOut([OutDir(item.name, entries)], p) {
      InOne(OutDir(item.name, entries), p);
    }
  }

  lemma BelowNamedGrows(x: Exclusions, named: Named, rel: Path, items: seq<Item>, item: Item, bounded: bool,
                        out: seq<Out>, more: seq<Out>)
    requires TakesBelowNamed(x, named, rel, items, bounded, out) && TakesBelowNamedOf(x, named, rel, item, bounded, more)
    ensures TakesBelowNamed(x, named, rel, items + [item], bounded, out + more)
  {
    hide PlainBelowNamedAt;
    OutGrows(out, more);
    forall p | PlainBelowNamed(x, named, items + [item], rel, bounded, p) ensures InOut(out + more, p) {
      var i :| 0 <= i < |items + [item]| && PlainBelowNamedAt(x, named, (items + [item])[i], rel, bounded, p);
      if i < |items| {
        assert PlainBelowNamedAt(x, named, items[i], rel, bounded, p);
      }
    }
  }

  lemma PlainNothing(x: Exclusions, rel: Path, item: Item, bound: Option<nat>, passThrough: bool)
    requires passThrough || Cut(x, rel + [item.name]) || (item.DirItem? && |rel| + 1 >= MAX_TREE_DEPTH)
             || (bound.Some? && !item.LinkItem? && item.device != bound.value)
             || (item.FileItem? && x.largerThan.Some? && item.size > x.largerThan.value)
    ensures TakesPlainOf(x, rel, item, bound, passThrough, [])
  {
  }

  lemma PlainLeaf(x: Exclusions, rel: Path, item: Item, bound: Option<nat>, passThrough: bool, entry: Out)
    requires entry.name == item.name
    requires item.DirItem? ==> bound.Some? && item.device != bound.value
    ensures TakesPlainOf(x, rel, item, bound, passThrough, [entry])
  {
    forall p | p != [] && PlainAt(x, item, rel, bound, p) ensures InOut([entry], p) {
      InOne(entry, p);
    }
  }

  lemma PlainDir(x: Exclusions, rel: Path, item: Item, bound: Option<nat>, bound': Option<nat>, passThrough: bool,
                 inside: bool, entries: seq<Out>)
    requires item.DirItem? && TakesPlain(x, rel + [item.name], item.children, bound', inside, entries)
    requires bound' == bound || (bound.Some? && bound' == Some(item.device))
    requires !passThrough && inside ==> Cut(x, rel + [item.name]) || (bound.Some? && item.device != bound.value)
    ensures TakesPlainOf(x, rel, item, bound, passThrough, [OutDir(item.name, entries)])
  {
    hide Cut;
    forall p | p != [] && PlainAt(x, item, rel, bound, p) && !passThrough ensures InOut([OutDir(item.name, entries)], p) {
      InOne(OutDir(item.name, entries), p);
      assert bound' == bound;
    }
  }

  /** What the walk inside one item promises, from what the walk of the whole directory has to promise. */
  ghost predicate TakesNamedOf(named: Named, rel: Path, item: Item, out: seq<Out>) {
    forall p | p != [] && rel + p in named.paths && PresentAt(item, p, |rel|) :: InOut(out, p)
  }

  lemma OutGrows(out: seq<Out>, more: seq<Out>)
    ensures forall p | InOut(out, p) :: InOut(out + more, p)
    ensures forall p | InOut(more, p) :: InOut(out + more, p)
    ensures forall p | InOut(out + more, p) :: InOut(out, p) || InOut(more, p)
  {
    forall p | InOut(out, p) ensures InOut(out + more, p) {
      var i :| 0 <= i < |out| && InOutAt(out[i], p);
      assert InOutAt((out + more)[i], p);
    }
    forall p | InOut(more, p) ensures InOut(out + more, p) {
      var i :| 0 <= i < |more| && InOutAt(more[i], p);
      assert InOutAt((out + more)[|out| + i], p);
    }
    forall p | InOut(out + more, p) ensures InOut(out, p) || InOut(more, p) {
      var i :| 0 <= i < |out + more| && InOutAt((out + more)[i], p);
      if i < |out| {
        assert InOutAt(out[i], p);
      } else {
        assert InOutAt(more[i - |out|], p);
      }
    }
  }

  /** The entries are those of some of the items, in their order, each of the kind of its item; what lies in a
      directory is taken from what lies in it. `depth` counts the directories down to here: none is taken that a
      reader would refuse. */
  ghost predicate Mirrors(items: seq<Item>, out: seq<Out>, depth: nat)
    decreases items, 1
  {
    out == [] ||
    (items != [] &&
     (Mirrors(items[..|items| - 1], out, depth)
      || (MirrorsItem(items[|items| - 1], out[|out| - 1], depth)
          && Mirrors(items[..|items| - 1], out[..|out| - 1], depth))))
  }

  ghost predicate MirrorsItem(item: Item, entry: Out, depth: nat)
    decreases item, 0
  {
    && entry.name == item.name
    && match item
       case DirItem(_, _, children) => entry.OutDir? && depth < MAX_TREE_DEPTH && Mirrors(children, entry.entries, depth + 1)
       case FileItem(_, _, _) => entry.OutFile?
       case LinkItem(_) => entry.OutLink?
  }

  /** What is taken of one item: nothing, or its entry. */
  ghost predicate MirrorsOne(item: Item, out: seq<Out>, depth: nat) {
    out == [] || (|out| == 1 && MirrorsItem(item, out[0], depth))
  }

  lemma MirrorsMore(items: seq<Item>, item: Item, out: seq<Out>, more: seq<Out>, depth: nat)
    requires Mirrors(items, out, depth) && MirrorsOne(item, more, depth)
    ensures Mirrors(items + [item], out + more, depth)
  {
    var all := items + [item];
    assert all[..|all| - 1] == items;
    if more == [] {
      assert out + more == out;
    } else {
      assert (out + more)[..|out + more| - 1] == out;
    }
  }

  /** The entries keep the order of the listing: if it is strictly sorted, so are they. */
  lemma {:induction false} MirrorsKeepsOrder(items: seq<Item>, out: seq<Out>, depth: nat)
    requires Mirrors(items, out, depth)
    requires forall i, j | 0 <= i < j < |items| :: S.Less(items[i].name, items[j].name)
    ensures forall i, j | 0 <= i < j < |out| :: S.Less(out[i].name, out[j].name)
    decreases |items|
  {
    hide MirrorsItem;
    if out != [] {
      var front := items[..|items| - 1];
      if Mirrors(front, out, depth) {
        MirrorsKeepsOrder(front, out, depth);
      } else {
        var before := out[..|out| - 1];
        MirrorsKeepsOrder(front, before, depth);
        LastMirrors(items[|items| - 1], out[|out| - 1], depth);
        forall i | 0 <= i < |before| ensures S.Less(out[i].name, out[|out| - 1].name) {
          var k := Mirrored(front, before, depth, i);
          assert S.Less(items[k].name, items[|items| - 1].name);
          LastMirrors(front[k], before[i], depth);
        }
      }
    }
  }

  lemma LastMirrors(item: Item, entry: Out, depth: nat)
    requires MirrorsItem(item, entry, depth)
    ensures entry.name == item.name
  {
  }

  /** The item an entry stands for. */
  lemma {:induction false} Mirrored(items: seq<Item>, out: seq<Out>, depth: nat, i: nat) returns (k: nat)
    requires Mirrors(items, out, depth) && i < |out|
    ensures k < |items| && MirrorsItem(items[k], out[i], depth)
    decreases |items|
  {
    hide MirrorsItem;
    var front := items[..|items| - 1];
    if Mirrors(front, out, depth) {
      k := Mirrored(front, out, depth, i);
    } else if i == |out| - 1 {
      k := |items| - 1;
    } else {
      k := Mirrored(front, out[..|out| - 1], depth, i);
    }
  }

  /** No two entries of a directory have the same name, here and below. */
  ghost predicate OneOfEach(items: seq<Item>) {
    && (forall i, j | 0 <= i < j < |items| :: items[i].name != items[j].name)
    && forall i | 0 <= i < |items| && items[i].DirItem? :: OneOfEach(items[i].children)
  }

  /** `e` is the entry at `path`. */
  ghost predicate HasEntry(out: seq<Out>, path: Path, e: Out)
    decreases |path|
  {
    path != [] && exists k :: 0 <= k < |out| && HasEntryAt(out[k], path, e)
  }

  ghost predicate HasEntryAt(entry: Out, path: Path, e: Out)
    requires path != []
    decreases |path|, 0
  {
    entry.name == path[0] && if |path| == 1 then e == entry else entry.OutDir? && HasEntry(entry.entries, path[1..], e)
  }

  lemma ChildIsUnique(items: seq<Item>, k: nat)
    requires OneOfEach(items) && k < |items|
    ensures Child(items, items[k].name) == Some(items[k])
  {
    var c := Child(items, items[k].name);
    ChildIsThere(items, k);
    var i :| 0 <= i < |items| && items[i] == c.value;
  }

  lemma {:induction false} ChildIsThere(items: seq<Item>, k: nat)
    requires k < |items|
    ensures Child(items, items[k].name).Some?
    decreases |items|
  {
    if k > 0 && items[0].name != items[k].name {
      ChildIsThere(items[1..], k - 1);
    }
  }

  /** Every entry stands for what the source has at its path, and is of that kind. */
  lemma {:induction false} EntryIsOfItsKind(item: Item, out: seq<Out>, depth: nat, path: Path, e: Out)
    requires item.DirItem? && OneOfEach(item.children) && Mirrors(item.children, out, depth) && HasEntry(out, path, e)
    ensures Lookup(item, path).Some? && MirrorsItem(Lookup(item, path).value, e, depth + |path| - 1)
    decreases |path|
  {
    var i :| 0 <= i < |out| && HasEntryAt(out[i], path, e);
    var k := Mirrored(item.children, out, depth, i);
    var c := item.children[k];
    ChildIsUnique(item.children, k);
    if |path| == 1 {
      assert Lookup(c, path[1..]) == Some(c);
    } else {
      EntryIsOfItsKind(c, out[i].entries, depth + 1, path[1..], e);
    }
  }

  class Walk {
    const rules: Exclusions
    const named: Named

    constructor (rules: Exclusions, named: Named)
      ensures this.rules == rules && this.named == named
    {
      this.rules, this.named := rules, named;
    }

    ghost predicate Stands(visit: Visit, rel: Path)
      reads visit.filter
    {
      named.Valid() && visit.depth == |rel| + 1 && Tracks(rules.patterns, visit.filter, rules.at + rel, rules.cases)
    }

    /** The content of the directory `rel`. */
    method WalkDir(items: seq<Item>, rel: Path, visit: Visit) returns (out: seq<Out>)
      requires Stands(visit, rel)
      ensures TakesNamed(named, rel, items, out)
      ensures TakesLittle(rules, named, rel, visit.passThrough, out)
      ensures TakesPlain(rules, rel, items, visit.bound, visit.passThrough, out)
      ensures TakesReal(named, rel, items, visit.bound, out)
      ensures TakesBelowNamed(rules, named, rel, items, visit.bound.Some?, out)
      ensures Mirrors(items, out, visit.depth)
      decreases items, 1
    {
      hide TakesReal, TakesRealOf, MirrorsItem, TakesBelowNamedOf, PlainBelowNamedAt;
      out := [];
      RealNothing(named, rel, visit.bound);
      for i := 0 to |items|
        invariant TakesNamed(named, rel, items[..i], out)
        invariant TakesLittle(rules, named, rel, visit.passThrough, out)
        invariant TakesPlain(rules, rel, items[..i], visit.bound, visit.passThrough, out)
        invariant TakesReal(named, rel, items[..i], visit.bound, out)
        invariant TakesBelowNamed(rules, named, rel, items[..i], visit.bound.Some?, out)
        invariant Mirrors(items[..i], out, visit.depth)
      {
        var more := WalkItem(items[i], rel, visit);
        MirrorsMore(items[..i], items[i], out, more, visit.depth);
        BelowNamedGrows(rules, named, rel, items[..i], items[i], visit.bound.Some?, out, more);
        RealGrows(named, rel, items[..i], items[i], visit.bound, out, more);
        assert items[..i + 1] == items[..i] + [items[i]];
        OutGrows(out, more);
        out := out + more;
      }
      assert items[..|items|] == items;
    }

    /** One item of the directory `rel`: skipped, or taken with whatever is to be taken below it. */
    method WalkItem(item: Item, rel: Path, visit: Visit) returns (out: seq<Out>)
      requires Stands(visit, rel)
      ensures TakesNamedOf(named, rel, item, out)
      ensures TakesLittle(rules, named, rel, visit.passThrough, out)
      ensures TakesPlainOf(rules, rel, item, visit.bound, visit.passThrough, out)
      ensures TakesRealOf(named, rel, item, visit.bound, out)
      ensures TakesBelowNamedOf(rules, named, rel, item, visit.bound.Some?, out)
      ensures MirrorsOne(item, out, visit.depth)
      decreases item, 0
    {
      hide Decision, Tracks, InOut, Present, TakesReal, TakesRealOf, TakesBelowNamed, TakesBelowNamedOf;
      RealNothing(named, rel, visit.bound);
      var child := rel + [item.name];
      var isNamed := child in named.paths;
      var toward := !isNamed && child in named.toward;
      NotOnTheWay(named, rel, item);
      NothingTaken(rules, named, rel, visit.passThrough);
      if visit.passThrough && !isNamed && !toward {
        PlainNothing(rules, rel, item, visit.bound, visit.passThrough);
        NothingBelowNamed(rules, named, rel, item, visit.bound.Some?, []);
        return [];
      }
      assert (rules.at + rel) + [item.name] == rules.at + child;
      var filter := Descend(rules.patterns, visit.filter, item.name, rules.cases, rules.at + rel);
      assert filter.decision == Decision(rules.patterns, rules.at + child, rules.cases) by {
        DecisionTracked(rules, filter, rules.at + child);
      }
      var tooLarge := item.FileItem? && rules.largerThan.Some? && item.size > rules.largerThan.value;
      var markers := if visit.passThrough then None else rules.markers(rules.at + rel);
      var beside := markers.Some? && item.name !in markers.value;
      var excluded := !isNamed && (filter.IsMatch() || tooLarge || beside);
      assert child[..|child| - 1] == rel && child[|child| - 1] == item.name;
      if excluded && !toward {
        PlainNothing(rules, rel, item, visit.bound, visit.passThrough);
        NothingBelowNamed(rules, named, rel, item, visit.bound.Some?, []);
        return [];
      }
      if item.DirItem? && visit.depth >= MAX_TREE_DEPTH {
        PlainNothing(rules, rel, item, visit.bound, visit.passThrough);
        NothingBelowNamed(rules, named, rel, item, visit.bound.Some?, []);
        return [];
      }
      assert Cut(rules, child) && !isNamed ==> toward && (visit.passThrough || excluded);
      var otherFs := !item.LinkItem? && visit.bound.Some? && item.device != visit.bound.value && !isNamed;
      var pass := !isNamed && (visit.passThrough || excluded);
      match item {
        case LinkItem(name) =>
          out := [OutLink(name)];
          PlainLeaf(rules, rel, item, visit.bound, visit.passThrough, out[0]);
          LeafTaken(rules, named, rel, item, visit.passThrough, out[0]);
          RealLeaf(named, rel, item, visit.bound, out[0]);
          NothingBelowNamed(rules, named, rel, item, visit.bound.Some?, out);
        case FileItem(name, _, _) =>
          if otherFs {
            PlainNothing(rules, rel, item, visit.bound, visit.passThrough);
            NothingBelowNamed(rules, named, rel, item, visit.bound.Some?, []);
            return [];
          }
          out := [OutFile(name)];
          PlainLeaf(rules, rel, item, visit.bound, visit.passThrough, out[0]);
          LeafTaken(rules, named, rel, item, visit.passThrough, out[0]);
          RealLeaf(named, rel, item, visit.bound, out[0]);
          NothingBelowNamed(rules, named, rel, item, visit.bound.Some?, out);
        case DirItem(name, device, children) =>
          if otherFs && !toward {
            out := [OutDir(name, [])];
            PlainLeaf(rules, rel, item, visit.bound, visit.passThrough, out[0]);
            LeafTaken(rules, named, rel, item, visit.passThrough, out[0]);
            RealLeaf(named, rel, item, visit.bound, out[0]);
            NothingBelowNamed(rules, named, rel, item, visit.bound.Some?, out);
            assert Mirrors(children, [], visit.depth + 1);
            return;
          }
          var bound := if isNamed && visit.bound.Some? then Some(device) else visit.bound;
          var inside := Visit(visit.depth + 1, filter, bound, pass || otherFs);
          var entries := WalkDir(children, child, inside);
          out := [OutDir(name, entries)];
          DirTaken(rules, named, rel, item, visit.passThrough, inside.passThrough, entries);
          PlainDir(rules, rel, item, visit.bound, bound, visit.passThrough, inside.passThrough, entries);
          RealDir(rules, named, rel, item, visit.bound, inside.passThrough, entries);
          DirBelowNamed(rules, named, rel, item, visit.bound, inside.passThrough, entries);
      }
    }
  }

  lemma DecisionTracked(x: Exclusions, st: FilterState, path: Path)
    requires path != [] && Tracks(x.patterns, st, path, x.cases)
    ensures st.decision == Decision(x.patterns, path, x.cases)
  {
  }

  /** An item that is neither named nor on the way has no named path in it. */
  lemma NotOnTheWay(named: Named, rel: Path, item: Item)
    requires named.Valid()
    ensures var child := rel + [item.name];
            child !in named.paths && (child !in named.toward || !item.DirItem?) ==> TakesNamedOf(named, rel, item, [])
    ensures item.DirItem? && |rel| + 1 >= MAX_TREE_DEPTH ==> TakesNamedOf(named, rel, item, [])
  {
    var child := rel + [item.name];
    forall p | p != [] && rel + p in named.paths && PresentAt(item, p, |rel|) ensures child in named.paths || (child in named.toward && item.DirItem?) {
      assert child <= rel + p;
      if |p| > 1 {
        assert child < rel + p;
      } else {
        assert child == rel + p;
      }
    }
  }

  lemma NothingTaken(x: Exclusions, named: Named, rel: Path, passThrough: bool)
    ensures TakesLittle(x, named, rel, passThrough, [])
  {
  }

  lemma InOne(entry: Out, p: Path)
    requires p != []
    ensures InOut([entry], p) <==> InOutAt(entry, p)
  {
    assert InOut([entry], p) <==> InOutAt([entry][0], p);
  }

  lemma NothingIn(p: Path)
    ensures !InOut([], p)
  {
  }

  /** A file, a link, or a directory kept empty. */
  lemma LeafTaken(x: Exclusions, named: Named, rel: Path, item: Item, passThrough: bool, entry: Out)
    requires named.Valid() && entry.name == item.name && (entry.OutDir? ==> entry.entries == [])
    requires var child := rel + [item.name];
             && (passThrough ==> child in named.paths || child in named.toward)
             && (Cut(x, child) && child !in named.paths ==> child in named.toward)
             && (item.DirItem? ==> child !in named.paths && child !in named.toward)
    ensures TakesNamedOf(named, rel, item, [entry])
    ensures TakesLittle(x, named, rel, passThrough, [entry])
  {
    hide Cut;
    var child := rel + [item.name];
    forall p: Path | p != [] ensures InOut([entry], p) <==> p == [item.name] {
      InOne(entry, p);
      if |p| > 1 {
        NothingIn(p[1..]);
      } else {
        assert p == [p[0]];
      }
    }
    NotOnTheWay(named, rel, item);
    forall p | InOut([entry], p)
      ensures passThrough ==> OnTheWay(named, rel + p, |rel|)
      ensures forall j | |rel| < j <= |rel + p| && Cut(x, (rel + p)[..j]) && (rel + p)[..j] !in named.paths ::
                OnTheWay(named, rel + p, j)
    {
      assert p == [item.name] && rel + p == child && child[..|child|] == child;
    }
    forall p | p != [] && rel + p in named.paths && PresentAt(item, p, |rel|)
      ensures InOut([entry], p)
    {
      if |p| > 1 {
        NothingIn(p);
      } else {
        assert p == [p[0]];
      }
    }
  }

  /** A directory with what was taken inside it. */
  lemma DirTaken(x: Exclusions, named: Named, rel: Path, item: Item, passThrough: bool, inside: bool, entries: seq<Out>)
    requires named.Valid() && item.DirItem?
    requires var child := rel + [item.name];
             && TakesNamed(named, child, item.children, entries) && TakesLittle(x, named, child, inside, entries)
             && (passThrough ==> child in named.paths || (child in named.toward && inside))
             && (Cut(x, child) && child !in named.paths ==> child in named.toward && inside)
    ensures TakesNamedOf(named, rel, item, [OutDir(item.name, entries)])
    ensures TakesLittle(x, named, rel, passThrough, [OutDir(item.name, entries)])
  {
    var child, entry := rel + [item.name], OutDir(item.name, entries);
    forall p | p != [] && rel + p in named.paths && PresentAt(item, p, |rel|)
      ensures InOut([entry], p)
    {
      InOne(entry, p);
      if |p| > 1 {
        assert child + p[1..] == rel + p;
      }
    }
    forall p | InOut([entry], p)
      ensures passThrough ==> OnTheWay(named, rel + p, |rel|)
      ensures forall j | |rel| < j <= |rel + p| && Cut(x, (rel + p)[..j]) && (rel + p)[..j] !in named.paths ::
                OnTheWay(named, rel + p, j)
    {
      InOne(entry, p);
      InsideDir(x, named, rel, item.name, passThrough, inside, entries, p);
    }
  }

  lemma InsideDir(x: Exclusions, named: Named, rel: Path, name: Name, passThrough: bool, inside: bool, entries: seq<Out>, p: Path)
    requires named.Valid() && p != [] && p[0] == name && (|p| == 1 || InOut(entries, p[1..]))
    requires var child := rel + [name];
             && TakesLittle(x, named, child, inside, entries)
             && (passThrough ==> child in named.paths || (child in named.toward && inside))
             && (Cut(x, child) && child !in named.paths ==> child in named.toward && inside)
    ensures passThrough ==> OnTheWay(named, rel + p, |rel|)
    ensures forall j | |rel| < j <= |rel + p| && Cut(x, (rel + p)[..j]) && (rel + p)[..j] !in named.paths ::
              OnTheWay(named, rel + p, j)
  {
    hide Cut, InOut;
    var child, full := rel + [name], rel + p;
    assert full[..|child|] == child;
    if |p| > 1 {
      assert child + p[1..] == full;
      assert inside ==> OnTheWay(named, full, |child|);
    } else {
      assert full == child;
    }
  }

  // ---------- the whole backup ----------

  /** The rules for all roots. */
  datatype Options = Options(patterns: seq<Pattern>, cases: CaseTable, largerThan: Option<nat>, oneFileSystem: bool,
                             markers: Path -> Option<set<Name>>)

  function RulesAt(o: Options, at: Path): Exclusions {
    Exclusions(at, o.patterns, o.cases, o.largerThan, o.markers)
  }

  /** What the file system has at a whole path; `item` stands for its top. */
  function Lookup(item: Item, path: Path): Option<Item> {
    if path == [] then Some(item)
    else if !item.DirItem? then None
    else
      match Child(item.children, path[0])
      case None => None
      case Some(c) => Lookup(c, path[1..])
  }

  function Child(items: seq<Item>, name: Name): (c: Option<Item>)
    ensures c.Some? ==> c.value in items && c.value.name == name
  {
    if items == [] then None else if items[0].name == name then Some(items[0]) else Child(items[1..], name)
  }

  /** What was taken of one root. A root that is no directory holds the one entry of that name. */
  datatype Taken = Taken(path: Path, entries: seq<Out>)

  function ContentAt(fs: Item, path: Path): seq<Item>
    requires Lookup(fs, path).Some?
  {
    if Lookup(fs, path).value.DirItem? then Lookup(fs, path).value.children else []
  }

  /** `p` is in the backup of this root: it is the root, or it lies inside, no directory on it is too deep, and there
      is an entry for it. */
  ghost predicate InBackup(fs: Item, t: Taken, p: Path)
    requires Lookup(fs, t.path).Some?
  {
    || (p == t.path && (Lookup(fs, p).value.DirItem? || (p != [] && InOut(t.entries, [p[|p| - 1]]))))
    || (t.path < p && (Present(ContentAt(fs, t.path), p[|t.path|..], 0) ==> InOut(t.entries, p[|t.path|..])))
  }

  /** The content of one root, by the rules: `named` are the paths inside it that were given as well. */
  ghost predicate Faithful(o: Options, fs: Item, t: Taken, named: Named)
    requires Lookup(fs, t.path).Some?
  {
    var root := Lookup(fs, t.path).value;
    if root.DirItem? then
      && TakesNamed(named, [], root.children, t.entries)
      && TakesLittle(RulesAt(o, t.path), named, [], false, t.entries)
      && TakesPlain(RulesAt(o, t.path), [], root.children, if o.oneFileSystem then Some(root.device) else None, false, t.entries)
      && TakesReal(named, [], root.children, if o.oneFileSystem then Some(root.device) else None, t.entries)
      && TakesBelowNamed(RulesAt(o, t.path), named, [], root.children, o.oneFileSystem, t.entries)
      && Mirrors(root.children, t.entries, 1)
    else t.path != [] && |t.entries| == 1 && t.entries[0].name == t.path[|t.path| - 1] && MirrorsItem(root, t.entries[0], 1)
  }

  function LeafOf(item: Item, name: Name): Out {
    if item.LinkItem? then OutLink(name) else OutFile(name)
  }

  /** One root: a directory is walked from the state its locator leads the patterns to. */
  method BackupRoot(o: Options, fs: Item, root: Root) returns (t: Taken, named: Named)
    requires Lookup(fs, root.path).Some? && fs.DirItem?
    ensures t.path == root.path && named.Valid() && Faithful(o, fs, t, named)
    ensures forall p :: p in named.paths <==> p in root.named
  {
    hide TakesNamed, TakesLittle, TakesPlain, TakesReal, TakesBelowNamed;
    named := NameAll(root.named);
    var item := Lookup(fs, root.path).value;
    if item.DirItem? {
      var rules := RulesAt(o, root.path);
      var filter := WalkTo(o.patterns, root.path, o.cases);
      assert root.path + [] == root.path;
      var walk := new Walk(rules, named);
      var bound := if o.oneFileSystem then Some(item.device) else None;
      var entries := walk.WalkDir(item.children, [], Visit(1, filter, bound, false));
      t := Taken(root.path, entries);
    } else {
      LookupNames(fs, root.path);
      t := Taken(root.path, [LeafOf(item, root.path[|root.path| - 1])]);
    }
  }

  lemma {:induction false} LookupNames(item: Item, path: Path)
    requires path != [] && Lookup(item, path).Some?
    ensures Lookup(item, path).value.name == path[|path| - 1]
    decreases |path|
  {
    if |path| > 1 {
      LookupNames(Child(item.children, path[0]).value, path[1..]);
    }
  }

  /** Every path that belongs to a root is in its backup. */
  lemma RootCovers(o: Options, fs: Item, root: Root, t: Taken, named: Named, p: Path)
    requires Lookup(fs, root.path).Some? && t.path == root.path && Faithful(o, fs, t, named)
    requires forall q :: q in named.paths <==> q in root.named
    requires root.path == p || exists n :: n in root.named && n != [] && root.path + n == p
    ensures InBackup(fs, t, p)
  {
    var item := Lookup(fs, root.path).value;
    if p == root.path {
      if !item.DirItem? {
        InOne(t.entries[0], [p[|p| - 1]]);
        assert t.entries == [t.entries[0]];
      }
    } else {
      var n :| n in root.named && n != [] && root.path + n == p;
      assert p[|t.path|..] == n && [] + n == n;
      if !item.DirItem? {
        assert !Present([], n, 0);
      }
    }
  }

  /** Every given path that is there is in the backup of the root it belongs to, whatever the rules exclude above it;
      no root lies inside another; and each root holds what the rules leave, and of what they cut off only the way to
      given paths and what these contain. A path that is not there refuses the backup. */
  method BackupSources(o: Options, fs: Item, paths: seq<Path>) returns (res: Result<seq<Taken>, Path>, ghost nameds: seq<Named>)
    requires fs.DirItem? && forall p | p in paths :: SlashFree(p)
    ensures res.Err? ==> res.error in paths && Lookup(fs, res.error).None?
    ensures res.Ok? ==> forall p | p in paths :: Lookup(fs, p).Some?
    ensures res.Ok? ==> |nameds| == |res.value| && forall i | 0 <= i < |res.value| ::
              && Lookup(fs, res.value[i].path).Some? && res.value[i].path in paths
              && Faithful(o, fs, res.value[i], nameds[i])
              && (forall n | n in nameds[i].paths :: res.value[i].path + n in paths)
    ensures res.Ok? ==> forall i, j | 0 <= i < |res.value| && 0 <= j < |res.value| && i != j ::
              !(res.value[i].path <= res.value[j].path)
    ensures res.Ok? ==> forall p | p in paths ::
              exists i :: 0 <= i < |res.value| && Lookup(fs, res.value[i].path).Some? && InBackup(fs, res.value[i], p)
  {
    hide Faithful, InBackup, Lookup;
    nameds := [];
    for k := 0 to |paths|
      invariant forall p | p in paths[..k] :: Lookup(fs, p).Some?
    {
      if Lookup(fs, paths[k]).None? {
        return Err(paths[k]), nameds;
      }
      assert paths[..k + 1] == paths[..k] + [paths[k]];
    }
    assert paths[..|paths|] == paths;
    var roots := RootsOf(paths);
    var ts: seq<Taken> := [];
    for k := 0 to |roots|
      invariant |ts| == |nameds| == k
      invariant forall i | 0 <= i < k ::
                  && ts[i].path == roots[i].path && Lookup(fs, ts[i].path).Some? && Faithful(o, fs, ts[i], nameds[i])
                  && forall q :: q in nameds[i].paths <==> q in roots[i].named
    {
      var t, named := BackupRoot(o, fs, roots[k]);
      ts, nameds := ts + [t], nameds + [named];
    }
    forall p | p in paths
      ensures exists i :: 0 <= i < |ts| && Lookup(fs, ts[i].path).Some? && InBackup(fs, ts[i], p)
    {
      var i :| 0 <= i < |roots|
               && (roots[i].path == p || exists n :: n in roots[i].named && n != [] && roots[i].path + n == p);
      RootCovers(o, fs, roots[i], ts[i], nameds[i], p);
    }
    res := Ok(ts);
  }

  /** What the file system has at a path is present there, if the path is not deeper than a backup can be read back. */
  lemma {:induction false} ShallowIsPresent(item: Item, path: Path, depth: nat)
    requires path != [] && Lookup(item, path).Some? && depth + |path| < MAX_TREE_DEPTH
    ensures Present(item.children, path, depth)
    decreases |path|
  {
    var c := Child(item.children, path[0]).value;
    var i :| 0 <= i < |item.children| && item.children[i] == c;
    if |path| > 1 {
      ShallowIsPresent(c, path[1..], depth + 1);
    }
    assert PresentAt(item.children[i], path, depth);
  }

  lemma {:induction false} LookupJoins(item: Item, a: Path, b: Path)
    requires Lookup(item, a).Some?
    ensures Lookup(item, a + b) == Lookup(Lookup(item, a).value, b)
    decreases |a|
  {
    if a == [] {
      assert a + b == b;
    } else {
      assert (a + b)[1..] == a[1..] + b && (a + b)[0] == a[0];
      LookupJoins(Child(item.children, a[0]).value, a[1..], b);
    }
  }

  /** A given path is backed up, whatever patterns, markers, sizes or file systems exclude the directories above it: as
      a root, or as an entry of the root it lies in, unless it lies too deep there. */
  lemma GivenIsBackedUp(fs: Item, t: Taken, p: Path)
    requires Lookup(fs, t.path).Some? && Lookup(fs, p).Some? && InBackup(fs, t, p)
    requires t.path < p && |p| - |t.path| < MAX_TREE_DEPTH
    ensures InOut(t.entries, p[|t.path|..])
  {
    hide Lookup, Present, InOut;
    var rel := p[|t.path|..];
    assert t.path + rel == p;
    LookupJoins(fs, t.path, rel);
    InsideIsDir(Lookup(fs, t.path).value, rel);
    ShallowIsPresent(Lookup(fs, t.path).value, rel, 0);
  }

  lemma InsideIsDir(item: Item, path: Path)
    requires path != [] && Lookup(item, path).Some?
    ensures item.DirItem?
  {
  }
}
