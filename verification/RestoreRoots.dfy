/** A whole restore and its dry run: where each root of the snapshot goes, whether it is walked at all, and what comes
  of all of them together (restore.rs).

  A root carries the path it was taken from, its locator; patterns are matched against the whole path, so the walk of
  a root starts with the selection already led down its locator. With a subtree only what lies at or below that path
  is restored, and the subtree itself is cut off the front of every path. All paths here are whole: what is restored
  at `path` goes to the target at `path[|subtree|..]`. */
module RestoringRoots {
  import opened Limits
  import opened Wrappers
  import opened Glob
  import opened PathFiltering
  import opened Restoring

  datatype Root = Root(locator: Path, entries: seq<Node>)

  datatype PlaceError = AllNegated | NotInSnapshot | NotADirectory

  // ---------- where a root goes ----------

  predicate IsDir(n: Node) {
    n.Dir? || (n.Unknown? && n.likeDir)
  }

  /** `is_file_root`: the root stands for a single file, which carries the last name of the locator. */
  predicate IsFileRoot(last: Name, entries: seq<Node>) {
    |entries| == 1 && !IsDir(entries[0]) && entries[0].name == last
  }

  /** The content of a root goes into `at`. Whether it is walked at all is decided at `guard`. */
  datatype Site = Elsewhere | NoDirectory | Site(guard: Path, at: Path, entries: seq<Node>)

  /** What lies at `more` below a directory: the first entry of each name counts. */
  function Below(entries: seq<Node>, more: Path): Site
    decreases |more|
  {
    if more == [] then Site([], [], entries)
    else
      match Find(entries, more[0])
      case None => Elsewhere
      case Some(n) => if n.Dir? then Below(n.children, more[1..]) else NoDirectory
  }

  function Find(entries: seq<Node>, name: Name): Option<Node> {
    if entries == [] then None
    else if entries[0].name == name then Some(entries[0])
    else Find(entries[1..], name)
  }

  function SiteOf(root: Root, subtree: Path): Site {
    var loc := root.locator;
    if !(loc <= subtree || subtree <= loc) then Elsewhere
    else if |subtree| < |loc| then
      Site(loc, if IsFileRoot(loc[|loc| - 1], root.entries) then loc[..|loc| - 1] else loc, root.entries)
    else if loc != [] && IsFileRoot(loc[|loc| - 1], root.entries) then NoDirectory
    else
      match Below(root.entries, subtree[|loc|..])
      case Site(_, _, entries) => Site(subtree, subtree, entries)
      case other => other
  }

  // ---------- what comes of a root ----------

  /** Some include that is not negated may still match below `path`. */
  ghost predicate MayMatch(r: Rules, path: Path) {
    exists e: At :: IsWaiting(r.includes, e, path, r.cases) && !r.includes[e.pattern].negated
  }

  /** The root is walked: nothing down to its guard is excluded, and something may be selected there or below. */
  ghost predicate Walked(r: Rules, s: Site) {
    s.Site? && OnTheWay(r, s.guard) && (Selected(r, s.guard) || MayMatch(r, s.guard))
  }

  function DirOf(s: Site): Node
    requires s.Site?
  {
    Dir([], s.entries)
  }

  /** The place of a root is restored with it, if it is selected. */
  ghost function SiteChosen(r: Rules, s: Site): set<Path> {
    if !Walked(r, s) then {}
    else (if Selected(r, s.at) then {s.at} else {}) + ChosenAmong(r, DirOf(s), |s.entries|, s.at, 0)
  }

  ghost function SiteEvents(r: Rules, s: Site): seq<Event> {
    if !Walked(r, s) then [] else EventsAmong(r, DirOf(s), |s.entries|, s.at, 0)
  }

  /** The place itself is made if anything goes there; it is not counted and not reported. */
  ghost function SiteBases(r: Rules, s: Site): seq<Path> {
    if SiteChosen(r, s) == {} then [] else [s.at]
  }

  ghost function AllChosen(r: Rules, ss: seq<Site>): set<Path> {
    if ss == [] then {} else AllChosen(r, ss[..|ss| - 1]) + SiteChosen(r, ss[|ss| - 1])
  }

  ghost function AllEvents(r: Rules, ss: seq<Site>): seq<Event> {
    if ss == [] then [] else AllEvents(r, ss[..|ss| - 1]) + SiteEvents(r, ss[|ss| - 1])
  }

  ghost function AllBases(r: Rules, ss: seq<Site>): seq<Path> {
    if ss == [] then [] else AllBases(r, ss[..|ss| - 1]) + SiteBases(r, ss[|ss| - 1])
  }

  function Sites(roots: seq<Root>, subtree: Path): (ss: seq<Site>)
    ensures |ss| == |roots| && forall i | 0 <= i < |ss| :: ss[i] == SiteOf(roots[i], subtree)
  {
    seq(|roots|, i requires 0 <= i < |roots| => SiteOf(roots[i], subtree))
  }

  lemma TakeOne<T>(s: seq<T>, i: nat)
    requires i < |s|
    ensures s[..i + 1] == s[..i] + [s[i]]
    ensures s[..i + 1][..|s[..i + 1]| - 1] == s[..i] && s[..i + 1][|s[..i + 1]| - 1] == s[i]
  {
  }

  /** What the `n + 1`st site adds. */
  lemma OneMore(r: Rules, ss: seq<Site>, n: nat)
    requires n < |ss|
    ensures AllChosen(r, ss[..n + 1]) == AllChosen(r, ss[..n]) + SiteChosen(r, ss[n])
    ensures AllEvents(r, ss[..n + 1]) == AllEvents(r, ss[..n]) + SiteEvents(r, ss[n])
    ensures AllBases(r, ss[..n + 1]) == AllBases(r, ss[..n]) + SiteBases(r, ss[n])
  {
    TakeOne(ss, n);
  }

  lemma Appended(r: Rules, ss: seq<Site>, s: Site)
    ensures AllChosen(r, ss + [s]) == AllChosen(r, ss) + SiteChosen(r, s)
    ensures AllEvents(r, ss + [s]) == AllEvents(r, ss) + SiteEvents(r, s)
    ensures AllBases(r, ss + [s]) == AllBases(r, ss) + SiteBases(r, s)
  {
    var all := ss + [s];
    assert all[..|all| - 1] == ss && all[|all| - 1] == s;
  }

  lemma AliveMayMatch(r: Rules, st: FilterState, path: Path)
    requires Tracks(r.includes, st, path, r.cases)
    ensures st.positiveAlive <==> MayMatch(r, path)
  {
    if st.positiveAlive {
      var e: At :| e in st.active && e.pattern < |r.includes| && !r.includes[e.pattern].negated;
      assert IsWaiting(r.includes, e, path, r.cases);
    }
    if MayMatch(r, path) {
      var e: At :| IsWaiting(r.includes, e, path, r.cases) && !r.includes[e.pattern].negated;
      assert e in st.active;
    }
  }

  /** Passing over a root loses nothing that is chosen: where its guard stops the walk, nothing of its content is, by
      the matcher alone. */
  lemma PassingOverLosesNothing(r: Rules, st: FilterState, root: Root, subtree: Path, q: Path)
    requires SiteOf(root, subtree).Site? && !Walked(r, SiteOf(root, subtree))
    requires Tracks(r.includes, st, SiteOf(root, subtree).guard, r.cases)
    ensures var s := SiteOf(root, subtree);
            q in ChosenAmong(r, DirOf(s), |s.entries|, s.at, 0) ==> !OnTheWay(r, q)
  {
    hide Decision;
    var s := SiteOf(root, subtree);
    if q in ChosenAmong(r, DirOf(s), |s.entries|, s.at, 0) {
      ChosenAmongExactly(r, DirOf(s), |s.entries|, s.at, 0, q);
      GuardIsOnTheWay(root, subtree, q);
      if OnTheWay(r, s.guard) {
        AliveMayMatch(r, st, s.guard);
        var more := q[|s.guard|..];
        assert q == s.guard + more;
        NothingSelectedBelow(r, st, s.guard, more);
        assert false;
      } else {
        var k :| 1 <= k <= |s.guard| && ExcludedAt(r, s.guard[..k]);
        assert q[..k] == s.guard[..k];
      }
    }
  }

  /** The guard lies on the way to everything the root holds. */
  lemma GuardIsOnTheWay(root: Root, subtree: Path, q: Path)
    requires var s := SiteOf(root, subtree);
             s.Site? && s.at < q && exists k :: 0 <= k < |s.entries| && s.entries[k].name == q[|s.at|]
    ensures SiteOf(root, subtree).guard <= q
  {
    var s := SiteOf(root, subtree);
    if s.guard != s.at {
      var k :| 0 <= k < |s.entries| && s.entries[k].name == q[|s.at|];
      assert k == 0 && s.guard == s.at + [s.entries[0].name];
      assert q[..|s.guard|] == s.guard;
    }
  }

  // ---------- the first round: placing the roots ----------

  /** The place of a root, with its position in the selection. `fileRoot` holds the last name of the locator and the
      position above it, for the case that the root turns out to stand for a single file. */
  datatype Placement = Placement(rel: Path, pos: Pos, fileRoot: Option<(Name, Pos)>, entries: seq<Node>)

  datatype Placed = NotHere | Pruned | Wrong | Here(placement: Placement)

  /** `pos` is a position at `path`, as far as the includes in `hit` have been counted. */
  ghost predicate StandsAt(r: Rules, hit: seq<bool>, pos: Pos, path: Path)
    reads pos.included, pos.excluded
  {
    && Tracks(r.includes, pos.included, path, r.cases)
    && Tracks(r.excludes, pos.excluded, path, r.cases)
    && pos.selected == Selected(r, path)
    && (forall p | p in pos.pending :: Covers(r, p, path))
    && (forall p: nat | Covers(r, p, path) :: p in pos.pending || (p < |hit| && hit[p]))
  }

  ghost predicate Grows(before: seq<bool>, now: seq<bool>) {
    |now| == |before| && forall p | 0 <= p < |before| && before[p] :: now[p]
  }

  lemma StandsOn(r: Rules, before: seq<bool>, now: seq<bool>, pos: Pos, path: Path)
    requires StandsAt(r, before, pos, path) && Grows(before, now)
    ensures StandsAt(r, now, pos, path)
  {
    hide Covers, Tracks;
  }

  /** The filter states a placement refers to. */
  ghost function StatesOf(pl: Placement): set<FilterState> {
    {pl.pos.included, pl.pos.excluded}
    + if pl.fileRoot.Some? then {pl.fileRoot.value.1.included, pl.fileRoot.value.1.excluded} else {}
  }

  /** The placement is the one of the site `s`. */
  ghost predicate PlacedAt(r: Rules, hit: seq<bool>, pl: Placement, s: Site, subtree: Path)
    reads StatesOf(pl)
  {
    && s.Site? && pl.entries == s.entries && subtree + pl.rel == s.guard
    && StandsAt(r, hit, pl.pos, s.guard)
    && match pl.fileRoot
       case None => s.at == s.guard
       case Some(f) =>
         && pl.rel != [] && f.0 == pl.rel[|pl.rel| - 1]
         && StandsAt(r, hit, f.1, s.guard[..|s.guard| - 1])
         && s.at == if IsFileRoot(f.0, s.entries) then s.guard[..|s.guard| - 1] else s.guard
  }

  /** `worth_walking` */
  method WorthWalking(r: Rules, pos: Pos, ghost path: Path) returns (yes: bool)
    requires Tracks(r.includes, pos.included, path, r.cases) && pos.selected == Selected(r, path)
    ensures yes <==> Selected(r, path) || MayMatch(r, path)
  {
    AliveMayMatch(r, pos.included, path);
    yes := pos.selected || pos.included.MayMatchBelow();
  }

  /** How many names the two paths share at their start. */
  method Shared(a: Path, b: Path) returns (n: nat)
    ensures n <= |a| && n <= |b| && a[..n] == b[..n]
    ensures n < |a| && n < |b| ==> a[n] != b[n]
  {
    n := 0;
    while n < |a| && n < |b| && a[n] == b[n]
      invariant n <= |a| && n <= |b| && a[..n] == b[..n]
    {
      n := n + 1;
    }
  }

  lemma SharedPrefix(a: Path, b: Path, n: nat)
    requires n <= |a| && n <= |b| && a[..n] == b[..n] && (n < |a| && n < |b| ==> a[n] != b[n])
    ensures (a <= b || b <= a) <==> n >= if |a| <= |b| then |a| else |b|
  {
  }

  /** The subtree lies at the root or in it. */
  method PlaceInside(select: Select, root: Root, subtree: Path) returns (p: Placed)
    requires select.Valid() && root.locator <= subtree
    ensures Decided(select.rules, select.hit, p, SiteOf(root, subtree), subtree)
  {
    hide Covers, Decision, Tracks, Selected, OnTheWay, MayMatch;
    var entries := root.entries;
    if root.locator != [] && IsFileRoot(root.locator[|root.locator| - 1], entries) {
      return Wrong;
    }
    var more := subtree[|root.locator|..];
    for k := 0 to |more|
      invariant Below(root.entries, more) == Below(entries, more[k..])
    {
      assert more[k..][0] == more[k] && more[k..][1..] == more[k + 1..];
      match Find(entries, more[k]) {
        case None => return NotHere;
        case Some(n) =>
          if !n.Dir? {
            return Wrong;
          }
          entries := n.children;
      }
    }
    assert more[|more|..] == [];
    var pos := select.Walk(subtree);
    if pos.None? {
      return Pruned;
    }
    var worth := WorthWalking(select.rules, pos.value, subtree);
    if !worth {
      return Pruned;
    }
    assert subtree + [] == subtree;
    p := Here(Placement([], pos.value, None, entries));
  }

  /** What the decision about a root means. */
  ghost predicate Decided(r: Rules, hit: seq<bool>, p: Placed, s: Site, subtree: Path)
    reads if p.Here? then StatesOf(p.placement) else {}
  {
    match p
    case NotHere => s.Elsewhere?
    case Wrong => s.NoDirectory?
    case Pruned => s.Site? && !Walked(r, s)
    case Here(pl) => Walked(r, s) && PlacedAt(r, hit, pl, s, subtree)
  }

  /** The root lies below the subtree: its place is what remains of the locator, and its tree is not read yet. */
  method PlaceBelow(select: Select, root: Root, subtree: Path) returns (p: Placed)
    requires select.Valid() && subtree <= root.locator && |subtree| < |root.locator|
    ensures Decided(select.rules, select.hit, p, SiteOf(root, subtree), subtree)
  {
    hide Covers, Decision, Tracks, Selected, MayMatch, OnTheWay;
    var loc := root.locator;
    var above, last := loc[..|loc| - 1], loc[|loc| - 1];
    assert above + [last] == loc;
    var parent := select.Walk(above);
    if parent.None? {
      NotPassable(select.rules, above, loc);
      return Pruned;
    }
    var pos := select.Child(parent.value, last, above);
    if pos.None? {
      ExcludedItself(select.rules, loc);
      return Pruned;
    }
    PassableSnoc(select.rules, above, last);
    var worth := WorthWalking(select.rules, pos.value, loc);
    if !worth {
      return Pruned;
    }
    assert subtree + loc[|subtree|..] == loc;
    p := Here(Placement(loc[|subtree|..], pos.value, Some((last, parent.value)), root.entries));
  }

  lemma ExcludedItself(r: Rules, path: Path)
    requires path != [] && ExcludedAt(r, path)
    ensures !OnTheWay(r, path)
  {
    assert path[..|path|] == path;
  }

  method PlaceRoot(select: Select, root: Root, subtree: Path) returns (p: Placed)
    requires select.Valid()
    ensures Decided(select.rules, select.hit, p, SiteOf(root, subtree), subtree)
  {
    hide Walked, PlacedAt, StandsAt;
    var loc := root.locator;
    var shared := Shared(loc, subtree);
    SharedPrefix(loc, subtree, shared);
    if shared < |loc| && shared < |subtree| {
      p := NotHere;
    } else if |loc| <= |subtree| {
      p := PlaceInside(select, root, subtree);
    } else {
      p := PlaceBelow(select, root, subtree);
    }
  }

  lemma NotPassable(r: Rules, above: Path, path: Path)
    requires !OnTheWay(r, above) && above <= path
    ensures !OnTheWay(r, path)
  {
    hide ExcludedAt;
    var k :| 1 <= k <= |above| && ExcludedAt(r, above[..k]);
    assert path[..k] == above[..k];
  }

  lemma PassableSnoc(r: Rules, above: Path, last: Name)
    requires OnTheWay(r, above) && !ExcludedAt(r, above + [last])
    ensures OnTheWay(r, above + [last])
  {
    hide ExcludedAt;
    var path := above + [last];
    forall k | 1 <= k <= |path| ensures !ExcludedAt(r, path[..k]) {
      assert k <= |above| ==> path[..k] == above[..k];
      assert k == |path| ==> path[..k] == path;
    }
  }

  /** Every placement belongs to its site, and the sites left out do not matter. */
  ghost predicate AllPlaced(r: Rules, hit: seq<bool>, pls: seq<Placement>, ss: seq<Site>, subtree: Path)
    reads set pl, o | pl in pls && o in StatesOf(pl) :: o
  {
    && |pls| == |ss|
    && forall i | 0 <= i < |pls| :: PlacedAt(r, hit, pls[i], ss[i], subtree)
  }

  ghost predicate SameOutcome(r: Rules, ss: seq<Site>, ts: seq<Site>) {
    AllChosen(r, ss) == AllChosen(r, ts) && AllEvents(r, ss) == AllEvents(r, ts) && AllBases(r, ss) == AllBases(r, ts)
  }

  lemma NothingOfUnwalked(r: Rules, ss: seq<Site>, s: Site)
    requires !Walked(r, s)
    ensures SameOutcome(r, ss + [s], ss)
  {
    Appended(r, ss, s);
  }

  /** The first root that the subtree does not lead to a directory in refuses the restore; so does a subtree that
      no root has. */
  ghost predicate Refused(ss: seq<Site>, subtree: Path, e: PlaceError) {
    match e
    case AllNegated => false
    case NotADirectory => exists i :: 0 <= i < |ss| && ss[i].NoDirectory?
    case NotInSnapshot => subtree != [] && forall i | 0 <= i < |ss| :: ss[i].Elsewhere?
  }

  ghost predicate Accepted(ss: seq<Site>, subtree: Path) {
    && (forall i | 0 <= i < |ss| :: !ss[i].NoDirectory?)
    && (subtree == [] || exists i :: 0 <= i < |ss| && ss[i].Site?)
  }

  lemma PlacedSnoc(r: Rules, hit: seq<bool>, pls: seq<Placement>, ss: seq<Site>, subtree: Path, pl: Placement, s: Site)
    requires AllPlaced(r, hit, pls, ss, subtree) && PlacedAt(r, hit, pl, s, subtree)
    ensures AllPlaced(r, hit, pls + [pl], ss + [s], subtree)
  {
    hide PlacedAt;
  }

  lemma WalkedSnoc(r: Rules, all: seq<Site>, taken: seq<Site>, s: Site)
    requires SameOutcome(r, all, taken)
    ensures SameOutcome(r, all + [s], taken + [s])
  {
    Appended(r, all, s);
    Appended(r, taken, s);
  }

  lemma UnwalkedSnoc(r: Rules, all: seq<Site>, taken: seq<Site>, s: Site)
    requires SameOutcome(r, all, taken) && !Walked(r, s)
    ensures SameOutcome(r, all + [s], taken)
  {
    NothingOfUnwalked(r, all, s);
  }

  /** Walked sites, each with its placement, that stand for all of `ss`. */
  ghost predicate Round(r: Rules, hit: seq<bool>, pls: seq<Placement>, taken: seq<Site>, ss: seq<Site>, subtree: Path)
    reads set pl, o | pl in pls && o in StatesOf(pl) :: o
  {
    && SameOutcome(r, ss, taken) && AllPlaced(r, hit, pls, taken, subtree)
    && forall i | 0 <= i < |taken| :: taken[i].Site? && Walked(r, taken[i])
  }

  lemma RoundNext(r: Rules, hit: seq<bool>, pls: seq<Placement>, taken: seq<Site>, ss: seq<Site>, subtree: Path,
                  p: Placed, s: Site)
    requires Round(r, hit, pls, taken, ss, subtree) && Decided(r, hit, p, s, subtree)
    ensures if p.Here? then Round(r, hit, pls + [p.placement], taken + [s], ss + [s], subtree)
            else Round(r, hit, pls, taken, ss + [s], subtree)
  {
    hide SameOutcome, AllPlaced, PlacedAt;
    if p.Here? {
      WalkedSnoc(r, ss, taken, s);
      PlacedSnoc(r, hit, pls, taken, subtree, p.placement, s);
      PlacedIsSite(r, hit, p.placement, s, subtree);
    } else {
      UnwalkedSnoc(r, ss, taken, s);
    }
  }

  lemma DecidedSite(r: Rules, hit: seq<bool>, p: Placed, s: Site, subtree: Path)
    requires Decided(r, hit, p, s, subtree)
    ensures p.NotHere? <==> s.Elsewhere?
    ensures p.Wrong? <==> s.NoDirectory?
  {
  }

  method PlaceRoots(select: Select, roots: seq<Root>, subtree: Path)
    returns (res: Result<seq<Placement>, PlaceError>, ghost taken: seq<Site>)
    requires select.Valid()
    ensures res.Ok? ==> Accepted(Sites(roots, subtree), subtree)
    ensures res.Ok? ==> Round(select.rules, select.hit, res.value, taken, Sites(roots, subtree), subtree)
    ensures res.Err? ==> Refused(Sites(roots, subtree), subtree, res.error)
  {
    hide SiteOf, Decided, SameOutcome, PlacedAt, Walked;
    ghost var ss := Sites(roots, subtree);
    var pls: seq<Placement> := [];
    var found := subtree == [];
    taken := [];
    assert Round(select.rules, select.hit, [], [], ss[..0], subtree) by { EmptyRound(select.rules, select.hit, subtree); }
    for i := 0 to |roots|
      invariant Round(select.rules, select.hit, pls, taken, ss[..i], subtree)
      invariant forall k | 0 <= k < i :: !ss[k].NoDirectory?
      invariant found <==> subtree == [] || exists k :: 0 <= k < i && ss[k].Site?
    {
      TakeOne(ss, i);
      assert forall k | 0 <= k < |pls| :: allocated(StatesOf(pls[k]));
      var p := PlaceRoot(select, roots[i], subtree);
      assert forall k | 0 <= k < |pls| :: PlacedAt(select.rules, select.hit, pls[k], taken[k], subtree);
      DecidedSite(select.rules, select.hit, p, ss[i], subtree);
      RoundNext(select.rules, select.hit, pls, taken, ss[..i], subtree, p, ss[i]);
      match p {
        case NotHere =>
        case Wrong => return Err(NotADirectory), taken;
        case Pruned => found := true;
        case Here(pl) => found, pls, taken := true, pls + [pl], taken + [ss[i]];
      }
    }
    assert ss[..|roots|] == ss;
    if !found {
      return Err(NotInSnapshot), taken;
    }
    res := Ok(pls);
  }

  lemma EmptyRound(r: Rules, hit: seq<bool>, subtree: Path)
    ensures Round(r, hit, [], [], [], subtree)
  {
  }

  lemma PlacedIsSite(r: Rules, hit: seq<bool>, pl: Placement, s: Site, subtree: Path)
    requires PlacedAt(r, hit, pl, s, subtree)
    ensures s.Site?
  {
  }

  // ---------- the second round: one placement ----------

  /** `open_placement`: the place is one level up for a root that stands for a file; if it is selected, the includes
      that cover it have found something. */
  method OpenPlacement(select: Select, pl: Placement, ghost s: Site, subtree: Path)
    returns (rel: Path, pos: Pos, entries: seq<Node>)
    requires select.Valid() && PlacedAt(select.rules, select.hit, pl, s, subtree)
    modifies select`hit
    ensures select.Stands(pos, s.at) && entries == s.entries && subtree + rel == s.at
    ensures forall p: nat | p < |select.hit| ::
              select.hit[p] == (old(select.hit[p]) || (Selected(select.rules, s.at) && Covers(select.rules, p, s.at)))
  {
    hide Covers, Tracks, Selected;
    entries := pl.entries;
    rel, pos := pl.rel, pl.pos;
    if pl.fileRoot.Some? && IsFileRoot(pl.fileRoot.value.0, entries) {
      rel, pos := rel[..|rel| - 1], pl.fileRoot.value.1;
      assert subtree + rel == s.guard[..|s.guard| - 1];
    }
    select.Credit(pos, s.at);
  }

  lemma SiteDone(r: Rules, s: Site, hit: seq<bool>, a: Progress, b: Progress)
    requires s.Site? && Walked(r, s) && |hit| == |a.hit|
    requires Among(r, DirOf(s), |s.entries|, s.at, 0, Selected(r, s.at), a, b)
    requires a.levels == [Level(s.at, false, false)]
    requires forall p: nat | p < |a.hit| :: a.hit[p] == (hit[p] || (Selected(r, s.at) && Covers(r, p, s.at)))
    ensures b.log == a.log + SiteEvents(r, s) && b.dirs == a.dirs + MakeDirs(SiteEvents(r, s))
    ensures |b.levels| == 1 && b.levels[0].created == (SiteChosen(r, s) != {})
    ensures |b.hit| == |hit| && forall p: nat | p < |hit| :: b.hit[p] == (hit[p] || CoversSome(r, p, SiteChosen(r, s)))
  {
    hide Covers, CoversSome, Walked;
    assert a.levels[..0] == [];
    assert Uncreated(a.levels) == [];
    var own := if Selected(r, s.at) then {s.at} else {};
    var below := ChosenAmong(r, DirOf(s), |s.entries|, s.at, 0);
    assert own + below != {} <==> Selected(r, s.at) || below != {} by {
      assert Selected(r, s.at) ==> s.at in own + below;
      assert !Selected(r, s.at) ==> own + below == below;
    }
    forall p: nat | p < |hit| ensures b.hit[p] == (hit[p] || CoversSome(r, p, own + below)) {
      CoversSomeOfUnion(r, p, own, below);
      CoversOwn(r, p, s.at);
    }
  }

  method RestorePlacement(w: Restore, pl: Placement, ghost s: Site, subtree: Path) returns (made: bool, rel: Path)
    requires w.select.Valid() && s.Site? && Walked(w.select.rules, s)
    requires PlacedAt(w.select.rules, w.select.hit, pl, s, subtree)
    modifies w`log, w`dirs, w.select`hit
    ensures var r := w.select.rules;
            && w.select.Valid() && w.log == old(w.log) + SiteEvents(r, s)
            && w.dirs == old(w.dirs) + MakeDirs(SiteEvents(r, s))
            && subtree + rel == s.at && made == (SiteChosen(r, s) != {})
            && forall p: nat | p < |w.select.hit| ::
                 w.select.hit[p] == (old(w.select.hit[p]) || CoversSome(r, p, SiteChosen(r, s)))
  {
    hide Covers, CoversSome, Tracks, Among, Walked, PendingDir.Valid, Selected, PlacedAt;
    ghost var hit := w.select.hit;
    var pos, entries;
    rel, pos, entries := OpenPlacement(w.select, pl, s, subtree);
    var base := new PendingDir.Base(subtree + rel);
    ghost var a := w.Now(base);
    w.RestoreChildren(base, Dir([], entries), subtree + rel, 0, pos);
    SiteDone(w.select.rules, s, hit, a, w.Now(base));
    ChainEnds(base);
    assert base.Levels()[0].created == base.handle;
    made := base.handle;
  }

  method PlanPlacement(p: Plan, pl: Placement, ghost s: Site, subtree: Path) returns (made: bool, rel: Path)
    requires p.select.Valid() && s.Site? && Walked(p.select.rules, s) && p.levels == []
    requires PlacedAt(p.select.rules, p.select.hit, pl, s, subtree)
    modifies p, p.select`hit
    ensures var r := p.select.rules;
            && p.select.Valid() && p.log == old(p.log) + SiteEvents(r, s)
            && p.dirs == old(p.dirs) + MakeDirs(SiteEvents(r, s)) && p.levels == []
            && subtree + rel == s.at && made == (SiteChosen(r, s) != {})
            && forall i: nat | i < |p.select.hit| ::
                 p.select.hit[i] == (old(p.select.hit[i]) || CoversSome(r, i, SiteChosen(r, s)))
  {
    hide Covers, CoversSome, Tracks, Made, Outcome, Walked, PlacedAt, Uncreated;
    ghost var hit := p.select.hit;
    var pos, entries;
    rel, pos, entries := OpenPlacement(p.select, pl, s, subtree);
    var dir, at := Dir([], entries), subtree + rel;
    p.levels := [Level(at, false, false)];
    ghost var a := p.Now();
    if pos.selected {
      p.Open();
    }
    AmongNothing(p.select.rules, dir, at, 0, pos.selected, a, p.Now());
    for k := 0 to |entries|
      invariant p.select.Stands(pos, at)
      invariant Among(p.select.rules, dir, k, at, 0, pos.selected, a, p.Now())
    {
      ghost var before := p.Now();
      p.PlanChild(dir, k, at, 0, pos);
      AmongNext(p.select.rules, dir, k, at, 0, pos.selected, a, before, p.Now());
    }
    SiteDone(p.select.rules, s, hit, a, p.Now());
    made := p.levels[0].created;
    p.levels := [];
  }

  // ---------- the whole restore ----------

  /** What a restore made, in order; how many directories it counted; the places it made; the includes that found
      nothing. */
  datatype Summary = Summary(log: seq<Event>, dirs: nat, bases: seq<Path>, missing: seq<nat>)

  /** Every include is negated, and there is one. */
  predicate OnlyNegated(includes: seq<Pattern>) {
    includes != [] && forall p | p in includes :: p.negated
  }

  /** What a restore of these roots comes to. */
  ghost predicate Comes(r: Rules, ss: seq<Site>, subtree: Path, sum: Summary) {
    && sum.log == AllEvents(r, ss) && sum.dirs == MakeDirs(sum.log)
    && |sum.bases| == |AllBases(r, ss)|
    && (forall i | 0 <= i < |sum.bases| :: subtree + sum.bases[i] == AllBases(r, ss)[i])
    && (forall p: nat :: p in sum.missing <==>
          p < |r.includes| && !r.includes[p].negated && !CoversSome(r, p, AllChosen(r, ss)))
  }

  ghost predicate Answer(r: Rules, roots: seq<Root>, subtree: Path, res: Result<Summary, PlaceError>) {
    var ss := Sites(roots, subtree);
    match res
    case Ok(sum) => !OnlyNegated(r.includes) && Accepted(ss, subtree) && Comes(r, ss, subtree, sum)
    case Err(e) => if e.AllNegated? then OnlyNegated(r.includes) else !OnlyNegated(r.includes) && Refused(ss, subtree, e)
  }

  /** How far a restore has come after the first `i` of its sites. */
  ghost predicate SoFar(r: Rules, ss: seq<Site>, i: nat, subtree: Path,
                        log: seq<Event>, dirs: nat, bases: seq<Path>, hit: seq<bool>)
    requires i <= |ss|
  {
    && log == AllEvents(r, ss[..i]) && dirs == MakeDirs(log)
    && |bases| == |AllBases(r, ss[..i])|
    && (forall k | 0 <= k < |bases| :: subtree + bases[k] == AllBases(r, ss[..i])[k])
    && |hit| == |r.includes|
    && forall p: nat | p < |hit| :: hit[p] == CoversSome(r, p, AllChosen(r, ss[..i]))
  }

  lemma SoFarNext(r: Rules, ss: seq<Site>, i: nat, subtree: Path, log: seq<Event>, dirs: nat, bases: seq<Path>,
                  hit: seq<bool>, made: bool, rel: Path, hit': seq<bool>)
    requires i < |ss| && ss[i].Site? && SoFar(r, ss, i, subtree, log, dirs, bases, hit)
    requires subtree + rel == ss[i].at && made == (SiteChosen(r, ss[i]) != {}) && |hit'| == |hit|
    requires forall p: nat | p < |hit'| :: hit'[p] == (hit[p] || CoversSome(r, p, SiteChosen(r, ss[i])))
    ensures SoFar(r, ss, i + 1, subtree, log + SiteEvents(r, ss[i]), dirs + MakeDirs(SiteEvents(r, ss[i])),
                  if made then bases + [rel] else bases, hit')
  {
    hide CoversSome, SiteChosen, SiteEvents, AllEvents, AllChosen, MakeDirs;
    OneMore(r, ss, i);
    MakeDirsAdds(log, SiteEvents(r, ss[i]));
    forall p: nat | p < |hit'| ensures hit'[p] == CoversSome(r, p, AllChosen(r, ss[..i + 1])) {
      CoversSomeOfUnion(r, p, AllChosen(r, ss[..i]), SiteChosen(r, ss[i]));
    }
  }

  lemma NothingYet(r: Rules, ss: seq<Site>, subtree: Path, hit: seq<bool>)
    requires |hit| == |r.includes| && forall p | 0 <= p < |hit| :: !hit[p]
    ensures SoFar(r, ss, 0, subtree, [], 0, [], hit)
  {
    NoEvents();
  }

  lemma AllDone(r: Rules, ss: seq<Site>, taken: seq<Site>, subtree: Path, log: seq<Event>, dirs: nat, bases: seq<Path>,
                hit: seq<bool>, missing: seq<nat>)
    requires SoFar(r, taken, |taken|, subtree, log, dirs, bases, hit) && SameOutcome(r, ss, taken)
    requires forall p: nat :: p in missing <==> p < |hit| && !hit[p] && !r.includes[p].negated
    ensures Comes(r, ss, subtree, Summary(log, dirs, bases, missing))
  {
    hide CoversSome, AllEvents, AllChosen, AllBases;
    assert taken[..|taken|] == taken;
  }

  /** A placement stands while others are restored. */
  lemma PlacedOn(r: Rules, before: seq<bool>, now: seq<bool>, pl: Placement, s: Site, subtree: Path)
    requires PlacedAt(r, before, pl, s, subtree) && Grows(before, now)
    ensures PlacedAt(r, now, pl, s, subtree)
  {
    hide StandsAt;
    StandsOn(r, before, now, pl.pos, s.guard);
    if pl.fileRoot.Some? {
      StandsOn(r, before, now, pl.fileRoot.value.1, s.guard[..|s.guard| - 1]);
    }
  }

  /** The placements one after the other, with one record of which includes have found something. */
  method RestoreAll(w: Restore, pls: seq<Placement>, ghost taken: seq<Site>, subtree: Path) returns (bases: seq<Path>)
    requires w.select.Valid() && w.log == [] && w.dirs == 0 && |taken| == |pls|
    requires forall p | 0 <= p < |w.select.hit| :: !w.select.hit[p]
    requires forall k | 0 <= k < |pls| ::
               && taken[k].Site? && Walked(w.select.rules, taken[k])
               && PlacedAt(w.select.rules, w.select.hit, pls[k], taken[k], subtree)
    modifies w`log, w`dirs, w.select`hit
    ensures w.select.Valid()
    ensures SoFar(w.select.rules, taken, |taken|, subtree, w.log, w.dirs, bases, w.select.hit)
  {
    hide Covers, CoversSome, Tracks, Walked, PlacedAt, SoFar;
    ghost var r := w.select.rules;
    bases := [];
    NothingYet(r, taken, subtree, w.select.hit);
    for i := 0 to |pls|
      invariant w.select.Valid()
      invariant SoFar(r, taken, i, subtree, w.log, w.dirs, bases, w.select.hit)
      invariant forall k | i <= k < |pls| :: PlacedAt(r, w.select.hit, pls[k], taken[k], subtree)
    {
      ghost var log, dirs, hit := w.log, w.dirs, w.select.hit;
      assert forall k | i <= k < |pls| :: allocated(StatesOf(pls[k]));
      var made, rel := RestorePlacement(w, pls[i], taken[i], subtree);
      assert forall k | i <= k < |pls| :: PlacedAt(r, hit, pls[k], taken[k], subtree);
      forall k | i <= k < |pls| ensures PlacedAt(r, w.select.hit, pls[k], taken[k], subtree) {
        PlacedOn(r, hit, w.select.hit, pls[k], taken[k], subtree);
      }
      SoFarNext(r, taken, i, subtree, log, dirs, bases, hit, made, rel, w.select.hit);
      if made {
        bases := bases + [rel];
      }
    }
  }

  /** `restore` */
  method RestoreSnapshot(rules: Rules, roots: seq<Root>, subtree: Path) returns (res: Result<Summary, PlaceError>)
    ensures Answer(rules, roots, subtree, res)
  {
    hide Covers, CoversSome, Walked, PlacedAt, SameOutcome, SoFar, Comes, Accepted, Refused;
    if OnlyNegated(rules.includes) {
      return Err(AllNegated);
    }
    var select := new Select(rules);
    ghost var ss, taken := Sites(roots, subtree), [];
    var placed;
    placed, taken := PlaceRoots(select, roots, subtree);
    if placed.Err? {
      RefusalIsAboutPlaces(ss, subtree, placed.error);
      return Err(placed.error);
    }
    var pls := placed.value;
    assert forall k | 0 <= k < |pls| :: allocated(StatesOf(pls[k]));
    var w := new Restore(select);
    assert forall k | 0 <= k < |pls| :: PlacedAt(rules, select.hit, pls[k], taken[k], subtree);
    var bases := RestoreAll(w, pls, taken, subtree);
    var missing := select.Unmatched();
    AllDone(rules, ss, taken, subtree, w.log, w.dirs, bases, select.hit, missing);
    res := Ok(Summary(w.log, w.dirs, bases, missing));
  }

  lemma RefusalIsAboutPlaces(ss: seq<Site>, subtree: Path, e: PlaceError)
    requires Refused(ss, subtree, e)
    ensures !e.AllNegated?
  {
  }

  /** The same for the dry run: the placements one after the other, with one record of which includes have found something. */
  method PlanAll(p: Plan, pls: seq<Placement>, ghost taken: seq<Site>, subtree: Path) returns (bases: seq<Path>)
    requires p.select.Valid() && p.log == [] && p.dirs == 0 && p.levels == [] && |taken| == |pls|
    requires forall i | 0 <= i < |p.select.hit| :: !p.select.hit[i]
    requires forall k | 0 <= k < |pls| ::
               && taken[k].Site? && Walked(p.select.rules, taken[k])
               && PlacedAt(p.select.rules, p.select.hit, pls[k], taken[k], subtree)
    modifies p, p.select`hit
    ensures p.select.Valid()
    ensures SoFar(p.select.rules, taken, |taken|, subtree, p.log, p.dirs, bases, p.select.hit)
  {
    hide Covers, CoversSome, Tracks, Walked, PlacedAt, SoFar;
    ghost var r := p.select.rules;
    bases := [];
    NothingYet(r, taken, subtree, p.select.hit);
    for i := 0 to |pls|
      invariant p.select.Valid() && p.levels == []
      invariant SoFar(r, taken, i, subtree, p.log, p.dirs, bases, p.select.hit)
      invariant forall k | i <= k < |pls| :: PlacedAt(r, p.select.hit, pls[k], taken[k], subtree)
    {
      ghost var log, dirs, hit := p.log, p.dirs, p.select.hit;
      assert forall k | i <= k < |pls| :: allocated(StatesOf(pls[k]));
      var made, rel := PlanPlacement(p, pls[i], taken[i], subtree);
      assert forall k | i <= k < |pls| :: PlacedAt(r, hit, pls[k], taken[k], subtree);
      forall k | i <= k < |pls| ensures PlacedAt(r, p.select.hit, pls[k], taken[k], subtree) {
        PlacedOn(r, hit, p.select.hit, pls[k], taken[k], subtree);
      }
      SoFarNext(r, taken, i, subtree, log, dirs, bases, hit, made, rel, p.select.hit);
      if made {
        bases := bases + [rel];
      }
    }
  }

  /** `plan_restore`: the same answer, and nothing is written. */
  method PlanRestore(rules: Rules, roots: seq<Root>, subtree: Path) returns (res: Result<Summary, PlaceError>)
    ensures Answer(rules, roots, subtree, res)
  {
    hide Covers, CoversSome, Walked, PlacedAt, SameOutcome, SoFar, Comes, Accepted, Refused;
    if OnlyNegated(rules.includes) {
      return Err(AllNegated);
    }
    var select := new Select(rules);
    ghost var ss, taken := Sites(roots, subtree), [];
    var placed;
    placed, taken := PlaceRoots(select, roots, subtree);
    if placed.Err? {
      RefusalIsAboutPlaces(ss, subtree, placed.error);
      return Err(placed.error);
    }
    var pls := placed.value;
    assert forall k | 0 <= k < |pls| :: allocated(StatesOf(pls[k]));
    var p := new Plan(select);
    assert forall k | 0 <= k < |pls| :: PlacedAt(rules, select.hit, pls[k], taken[k], subtree);
    var bases := PlanAll(p, pls, taken, subtree);
    var missing := select.Unmatched();
    AllDone(rules, ss, taken, subtree, p.log, p.dirs, bases, select.hit, missing);
    res := Ok(Summary(p.log, p.dirs, bases, missing));
  }

  /** The dry run tells what the restore will do: the same refusal, or the same things made in the same order, the same
      count of directories, the same places, and the same includes that find nothing. */
  lemma DryRunIsTrue(r: Rules, roots: seq<Root>, subtree: Path, plan: Result<Summary, PlaceError>,
                     done: Result<Summary, PlaceError>)
    requires Answer(r, roots, subtree, plan) && Answer(r, roots, subtree, done)
    ensures plan.Ok? <==> done.Ok?
    ensures plan.Err? ==> plan.error == done.error
    ensures plan.Ok? ==>
              && plan.value.log == done.value.log && plan.value.dirs == done.value.dirs
              && plan.value.bases == done.value.bases
              && forall p: nat :: p in plan.value.missing <==> p in done.value.missing
  {
    hide AllEvents, AllChosen, AllBases, CoversSome;
    if plan.Ok? && done.Ok? {
      var a, b := plan.value.bases, done.value.bases;
      forall i | 0 <= i < |a| ensures a[i] == b[i] {
        assert subtree + a[i] == subtree + b[i];
        assert (subtree + a[i])[|subtree|..] == a[i] && (subtree + b[i])[|subtree|..] == b[i];
      }
    }
  }
}
