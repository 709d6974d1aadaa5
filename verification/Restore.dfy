/** Which nodes a partial restore restores, and in which order it makes them; the dry run does the same
  without writing (restore.rs). */
module Restoring {
  import opened Limits
  import opened Wrappers
  import opened Glob
  import opened PathFiltering

  datatype Node =
    | Dir(name: Name, children: seq<Node>)
    | File(name: Name)
    | Symlink(name: Name)
    /** A directory without a subtree, or a kind this version does not know. */
    | Unknown(name: Name, likeDir: bool)

  datatype Rules = Rules(includes: seq<Pattern>, excludes: seq<Pattern>, cases: CaseTable)

  datatype Event = MakeDir(path: Path) | MakeFile(path: Path) | MakeLink(path: Path)

  // ---------- what is chosen, by the reference matcher ----------

  ghost predicate ExcludedAt(r: Rules, path: Path) {
    Decision(r.excludes, path, r.cases) == Some(true)
  }

  /** The nearest include decision at the node or above it says yes; without includes everything is selected. */
  ghost predicate Selected(r: Rules, path: Path)
    decreases |path|
  {
    if path == [] then r.includes == []
    else
      match Decision(r.includes, path, r.cases)
      case Some(yes) => yes
      case None => Selected(r, path[..|path| - 1])
  }

  /** The chosen nodes at `node` and below: not excluded, nor below an excluded one, and selected. */
  ghost function Chosen(r: Rules, node: Node, path: Path, depth: nat): set<Path>
    decreases node, if node.Dir? then |node.children| + 1 else 0
  {
    if ExcludedAt(r, path) then {}
    else
      (if Selected(r, path) then {path} else {})
      + if node.Dir? && depth < MAX_TREE_DEPTH then ChosenAmong(r, node, |node.children|, path, depth) else {}
  }

  ghost function ChosenAmong(r: Rules, dir: Node, n: nat, path: Path, depth: nat): set<Path>
    requires dir.Dir? && n <= |dir.children|
    decreases dir, n
  {
    if n == 0 then {}
    else
      ChosenAmong(r, dir, n - 1, path, depth)
      + Chosen(r, dir.children[n - 1], path + [dir.children[n - 1].name], depth + 1)
  }

  /** `node` has a descendant at `more` (itself at `[]`), none deeper than the walk goes. */
  ghost predicate Has(node: Node, more: Path, depth: nat)
    decreases |more|
  {
    more == [] ||
    (node.Dir? && depth < MAX_TREE_DEPTH
     && exists k :: 0 <= k < |node.children| && node.children[k].name == more[0] && Has(node.children[k], more[1..], depth + 1))
  }

  /** Neither the node nor, down from `from` names, a directory above it is excluded. */
  ghost predicate NotExcluded(r: Rules, path: Path, from: nat) {
    forall k | from <= k <= |path| :: !ExcludedAt(r, path[..k])
  }

  /** Nothing on the way from the top down to `path` is excluded, nor is `path`. */
  ghost predicate OnTheWay(r: Rules, path: Path) {
    forall k | 1 <= k <= |path| :: !ExcludedAt(r, path[..k])
  }

  /** A node is chosen exactly if it is there, nothing from the start of the walk down to it is excluded, and
      the nearest include decision selects it. */
  lemma {:induction false} ChosenExactly(r: Rules, node: Node, path: Path, depth: nat, q: Path)
    ensures q in Chosen(r, node, path, depth) <==>
              (path <= q && Has(node, q[|path|..], depth) && NotExcluded(r, q, |path|) && Selected(r, q))
    decreases node, 1
  {
    hide ExcludedAt, Selected;
    if path <= q {
      assert q[..|path|] == path;
      assert q[|path|..] == [] <==> q == path;
    }
    if node.Dir? && depth < MAX_TREE_DEPTH {
      ChosenAmongExactly(r, node, |node.children|, path, depth, q);
    }
  }

  lemma {:induction false} ChosenAmongExactly(r: Rules, dir: Node, n: nat, path: Path, depth: nat, q: Path)
    requires dir.Dir? && n <= |dir.children|
    ensures q in ChosenAmong(r, dir, n, path, depth) <==>
              (path < q && NotExcluded(r, q, |path| + 1) && Selected(r, q)
               && exists k :: 0 <= k < n && dir.children[k].name == q[|path|]
                              && Has(dir.children[k], q[|path| + 1..], depth + 1))
    decreases dir, 0, n
  {
    hide ExcludedAt, Selected;
    if n > 0 {
      var child := dir.children[n - 1];
      ChosenAmongExactly(r, dir, n - 1, path, depth, q);
      ChosenExactly(r, child, path + [child.name], depth + 1, q);
      if path < q {
        assert path + [child.name] <= q <==> child.name == q[|path|];
      }
    }
  }

  /** What has to be made, in order: a directory before its content, and only if something is chosen there. */
  ghost function Events(r: Rules, node: Node, path: Path, depth: nat): seq<Event>
    decreases node, if node.Dir? then |node.children| + 1 else 0
  {
    if ExcludedAt(r, path) then []
    else
      match node
      case File(_) => if Selected(r, path) then [MakeFile(path)] else []
      case Symlink(_) => if Selected(r, path) then [MakeLink(path)] else []
      case Unknown(_, _) => []
      case Dir(_, children) =>
        if depth >= MAX_TREE_DEPTH || Chosen(r, node, path, depth) == {} then []
        else [MakeDir(path)] + EventsAmong(r, node, |children|, path, depth)
  }

  ghost function EventsAmong(r: Rules, dir: Node, n: nat, path: Path, depth: nat): seq<Event>
    requires dir.Dir? && n <= |dir.children|
    decreases dir, n
  {
    if n == 0 then []
    else
      EventsAmong(r, dir, n - 1, path, depth)
      + Events(r, dir.children[n - 1], path + [dir.children[n - 1].name], depth + 1)
  }

  lemma NothingChosenNoEvents(r: Rules, node: Node, path: Path, depth: nat)
    requires Chosen(r, node, path, depth) == {}
    ensures Events(r, node, path, depth) == []
  {
    assert !ExcludedAt(r, path) && Selected(r, path) ==> path in Chosen(r, node, path, depth);
  }

  lemma {:induction false} NothingAmongNoEvents(r: Rules, dir: Node, n: nat, path: Path, depth: nat)
    requires dir.Dir? && n <= |dir.children| && ChosenAmong(r, dir, n, path, depth) == {}
    ensures EventsAmong(r, dir, n, path, depth) == []
  {
    if n > 0 {
      NothingAmongNoEvents(r, dir, n - 1, path, depth);
      NothingChosenNoEvents(r, dir.children[n - 1], path + [dir.children[n - 1].name], depth + 1);
    }
  }

  /** The pattern matches the node or a directory above it. */
  ghost predicate Covers(r: Rules, p: nat, path: Path) {
    && p < |r.includes| && !r.includes[p].negated
    && exists k :: 1 <= k <= |path| && PatternHits(r.includes, p, path[..k], r.cases)
  }

  ghost predicate CoversSome(r: Rules, p: nat, paths: set<Path>) {
    exists q :: q in paths && Covers(r, p, q)
  }

  lemma CoversSnoc(r: Rules, p: nat, path: Path, name: Name)
    ensures Covers(r, p, path + [name]) <==>
              (Covers(r, p, path)
               || (p < |r.includes| && !r.includes[p].negated && PatternHits(r.includes, p, path + [name], r.cases)))
  {
    var full := path + [name];
    assert forall k | 0 <= k <= |path| :: full[..k] == path[..k];
    assert full[..|full|] == full;
    if Covers(r, p, full) {
      var k :| 1 <= k <= |full| && PatternHits(r.includes, p, full[..k], r.cases);
      assert k <= |path| || full[..k] == full;
    }
    if Covers(r, p, path) {
      var k :| 1 <= k <= |path| && PatternHits(r.includes, p, path[..k], r.cases);
      assert PatternHits(r.includes, p, full[..k], r.cases);
    }
    if p < |r.includes| && !r.includes[p].negated && PatternHits(r.includes, p, full, r.cases) {
      assert PatternHits(r.includes, p, full[..|full|], r.cases);
    }
  }

  // ---------- pruning ----------

  /** Below a node that is not selected, where no include can match any more, nothing is chosen. */
  lemma {:induction false} NothingSelectedBelow(r: Rules, st: FilterState, path: Path, more: Path)
    requires Tracks(r.includes, st, path, r.cases) && !st.positiveAlive && !Selected(r, path)
    ensures !Selected(r, path + more)
    decreases |more|
  {
    if more == [] {
      assert path + more == path;
    } else {
      var front := more[..|more| - 1];
      NothingSelectedBelow(r, st, path, front);
      NothingMatchesBelow(r.includes, st, path, more, r.cases);
      assert (path + more)[..|path + more| - 1] == path + front;
    }
  }

  lemma {:induction false} NothingChosenBelow(r: Rules, st: FilterState, path: Path, more: Path, node: Node, depth: nat)
    requires Tracks(r.includes, st, path, r.cases) && !st.positiveAlive && !Selected(r, path)
    ensures Chosen(r, node, path + more, depth) == {}
    decreases node, if node.Dir? then |node.children| + 1 else 0
  {
    NothingSelectedBelow(r, st, path, more);
    if node.Dir? && depth < MAX_TREE_DEPTH {
      NothingChosenAmong(r, st, path, more, node, |node.children|, depth);
    }
  }

  lemma {:induction false} NothingChosenAmong(r: Rules, st: FilterState, path: Path, more: Path, dir: Node, n: nat, depth: nat)
    requires Tracks(r.includes, st, path, r.cases) && !st.positiveAlive && !Selected(r, path)
    requires dir.Dir? && n <= |dir.children|
    ensures ChosenAmong(r, dir, n, path + more, depth) == {}
    decreases dir, n
  {
    if n > 0 {
      NothingChosenAmong(r, st, path, more, dir, n - 1, depth);
      var c := dir.children[n - 1];
      assert (path + more) + [c.name] == path + (more + [c.name]);
      NothingChosenBelow(r, st, path, more + [c.name], c, depth + 1);
    }
  }

  /** Every include that covers the node has been counted. */
  ghost predicate Counted(r: Rules, hit: seq<bool>, path: Path) {
    forall p: nat | Covers(r, p, path) :: p < |hit| && hit[p]
  }

  // ---------- the selection along a walk ----------

  /** Where a node stands in the two pattern lists. */
  datatype Pos = Pos(included: FilterState, excluded: FilterState, selected: bool, pending: seq<nat>)

  class Select {
    const rules: Rules
    /** For each include: something it covers has been restored. */
    var hit: seq<bool>

    constructor (rules: Rules)
      ensures this.rules == rules && hit == seq(|rules.includes|, _ => false)
    {
      this.rules, hit := rules, seq(|rules.includes|, _ => false);
    }

    ghost predicate Valid()
      reads this
    {
      |hit| == |rules.includes|
    }

    /** `pos` is the position of the node at `path`: its `pending` includes cover the node and have not been
        counted. */
    ghost predicate Stands(pos: Pos, path: Path)
      reads this, pos.included, pos.excluded
    {
      && Valid()
      && Tracks(rules.includes, pos.included, path, rules.cases)
      && Tracks(rules.excludes, pos.excluded, path, rules.cases)
      && pos.selected == Selected(rules, path)
      && (forall p | p in pos.pending :: Covers(rules, p, path))
      && (forall p: nat | Covers(rules, p, path) :: p in pos.pending || (p < |hit| && hit[p]))
    }

    /** `start` */
    method Top() returns (pos: Pos)
      requires Valid()
      ensures Stands(pos, []) && fresh(pos.included) && fresh(pos.excluded)
    {
      var included := Start(rules.includes, rules.cases);
      var excluded := Start(rules.excludes, rules.cases);
      pos := Pos(included, excluded, rules.includes == [], []);
    }

    /** The includes still to be counted at a child. */
    method PendingOf(before: seq<nat>, matched: seq<nat>) returns (pending: seq<nat>)
      requires Valid() && (forall p | p in before :: p < |hit|) && (forall p | p in matched :: p < |hit|)
      ensures forall p: nat :: p in pending <==>
                (p < |hit| && !hit[p] && (p in before || (p in matched && !rules.includes[p].negated)))
    {
      pending := [];
      for i := 0 to |before|
        invariant forall p: nat :: p in pending <==> (p < |hit| && !hit[p] && p in before[..i])
      {
        assert before[i] in before && before[..i + 1] == before[..i] + [before[i]];
        if !hit[before[i]] {
          pending := pending + [before[i]];
        }
      }
      assert before[..|before|] == before;
      for i := 0 to |matched|
        invariant forall p: nat :: p in pending <==>
                    (p < |hit| && !hit[p] && (p in before || (p in matched[..i] && !rules.includes[p].negated)))
      {
        var p := matched[i];
        assert p in matched && matched[..i + 1] == matched[..i] + [p];
        if !rules.includes[p].negated && !hit[p] && p !in pending {
          pending := pending + [p];
        }
      }
      assert matched[..|matched|] == matched;
    }

    /** One step down; `None` if the child is excluded. */
    method Child(parent: Pos, name: Name, ghost path: Path) returns (pos: Option<Pos>)
      requires Stands(parent, path)
      ensures pos.None? <==> ExcludedAt(rules, path + [name])
      ensures pos.Some? ==> Stands(pos.value, path + [name])
      ensures pos.Some? ==> fresh(pos.value.included) && fresh(pos.value.excluded)
    {
      hide Covers, Decision;
      ghost var full := path + [name];
      var excluded := Descend(rules.excludes, parent.excluded, name, rules.cases, path);
      if excluded.IsMatch() {
        return None;
      }
      var included := Descend(rules.includes, parent.included, name, rules.cases, path);
      forall p | p in parent.pending ensures p < |hit| {
        CoversAnInclude(rules, p, path);
      }
      forall p | p in included.matched ensures p < |hit| {
        assert PatternHits(rules.includes, p, full, rules.cases);
      }
      var pending := PendingOf(parent.pending, included.matched);
      forall p: nat ensures Covers(rules, p, full) <==>
                         (Covers(rules, p, path)
                          || (p < |rules.includes| && !rules.includes[p].negated && p in included.matched)) {
        CoversSnoc(rules, p, path, name);
      }
      var selected := if included.decision.Some? then included.decision.value else parent.selected;
      assert full[..|full| - 1] == path;
      pos := Some(Pos(included, excluded, selected, pending));
    }

    /** From the top along `names`; `None` if something on the way is excluded. */
    method Walk(names: Path) returns (pos: Option<Pos>)
      requires Valid()
      ensures pos.None? <==> !OnTheWay(rules, names)
      ensures pos.Some? ==> Stands(pos.value, names) && fresh(pos.value.included) && fresh(pos.value.excluded)
    {
      hide Covers, Decision, Tracks;
      var at := Top();
      for k := 0 to |names|
        invariant Stands(at, names[..k]) && fresh(at.included) && fresh(at.excluded)
        invariant forall i | 1 <= i <= k :: !ExcludedAt(rules, names[..i])
      {
        assert names[..k + 1] == names[..k] + [names[k]];
        var next := Child(at, names[k], names[..k]);
        if next.None? {
          assert ExcludedAt(rules, names[..k + 1]);
          return None;
        }
        at := next.value;
      }
      assert names[..|names|] == names;
      pos := Some(at);
    }

    /** The node is restored: every include that covers it has found something. */
    method Credit(pos: Pos, ghost path: Path)
      requires Stands(pos, path)
      modifies `hit
      ensures Valid() && Stands(pos, path)
      ensures forall p: nat | p < |hit| :: hit[p] == (old(hit[p]) || (pos.selected && Covers(rules, p, path)))
    {
      if pos.selected {
        for i := 0 to |pos.pending|
          invariant Valid()
          invariant forall p: nat | p < |hit| :: hit[p] == (old(hit)[p] || p in pos.pending[..i])
        {
          assert pos.pending[i] in pos.pending && pos.pending[..i + 1] == pos.pending[..i] + [pos.pending[i]];
          hit := hit[pos.pending[i] := true];
        }
        assert pos.pending[..|pos.pending|] == pos.pending;
      }
    }

    /** Whether the walk goes to the child; it does wherever something is chosen. */
    method Visit(parent: Pos, node: Node, ghost path: Path, ghost depth: nat) returns (pos: Option<Pos>)
      requires Stands(parent, path)
      modifies `hit
      ensures Valid() && Stands(parent, path)
      ensures pos.None? ==> Chosen(rules, node, path + [node.name], depth) == {} && hit == old(hit)
      ensures pos.Some? ==> !ExcludedAt(rules, path + [node.name]) && Stands(pos.value, path + [node.name])
      ensures pos.Some? ==> pos.value.selected || node.Dir? || node.Unknown?
      ensures pos.Some? && pos.value.selected ==> Counted(rules, hit, path + [node.name])
      ensures forall p: nat | p < |hit| && old(hit[p]) :: hit[p]
      ensures pos.Some? ==> fresh(pos.value.included) && fresh(pos.value.excluded)
      ensures pos.Some? ==> forall p: nat | p < |hit| ::
                hit[p] == (old(hit[p]) || (pos.value.selected && Covers(rules, p, path + [node.name])))
    {
      hide Covers, Decision;
      ghost var full := path + [node.name];
      pos := Child(parent, node.name, path);
      if pos.None? {
        return;
      }
      Credit(pos.value, full);
      forall p: nat | Covers(rules, p, full) ensures p < |hit| {
        CoversAnInclude(rules, p, full);
      }
      var dir := node.Dir? || (node.Unknown? && node.likeDir);
      if !(pos.value.selected || (dir && pos.value.included.MayMatchBelow())) {
        if dir {
          assert full + [] == full;
          NothingChosenBelow(rules, pos.value.included, full, [], node, depth);
        }
        pos := None;
      }
    }

    /** The includes that found nothing. */
    method Unmatched() returns (missing: seq<nat>)
      requires Valid()
      ensures forall p: nat :: p in missing <==> p < |hit| && !hit[p] && !rules.includes[p].negated
    {
      missing := [];
      for p := 0 to |hit|
        invariant forall q: nat :: q in missing <==> q < p && !hit[q] && !rules.includes[q].negated
      {
        if !hit[p] && !rules.includes[p].negated {
          missing := missing + [p];
        }
      }
    }
  }

  lemma CoversAnInclude(r: Rules, p: nat, path: Path)
    requires Covers(r, p, path)
    ensures p < |r.includes|
  {
  }

  // ---------- directories are made when something goes into them ----------

  /** A directory on the way to the node: `counted` unless it is the place the restore starts from. */
  datatype Level = Level(path: Path, counted: bool, created: bool)

  function Uncreated(ls: seq<Level>): seq<Event> {
    if ls == [] then []
    else
      var last := ls[|ls| - 1];
      Uncreated(ls[..|ls| - 1]) + if last.counted && !last.created then [MakeDir(last.path)] else []
  }

  function AllCreated(ls: seq<Level>): (out: seq<Level>)
    ensures |out| == |ls| && forall i | 0 <= i < |ls| :: out[i] == ls[i].(created := true)
  {
    seq(|ls|, i requires 0 <= i < |ls| => ls[i].(created := true))
  }

  lemma {:induction false} CreatedIsNotUncreated(ls: seq<Level>)
    requires forall i | 0 <= i < |ls| :: ls[i].created
    ensures Uncreated(ls) == [] && AllCreated(ls) == ls
    decreases |ls|
  {
    if ls != [] {
      CreatedIsNotUncreated(ls[..|ls| - 1]);
    }
  }

  function MakeDirs(es: seq<Event>): nat {
    if es == [] then 0 else MakeDirs(es[..|es| - 1]) + if es[|es| - 1].MakeDir? then 1 else 0
  }

  lemma {:induction false} MakeDirsAdds(a: seq<Event>, b: seq<Event>)
    ensures MakeDirs(a + b) == MakeDirs(a) + MakeDirs(b)
    decreases |b|
  {
    if b == [] {
      assert a + b == a;
    } else {
      assert (a + b)[..|a + b| - 1] == a + b[..|b| - 1];
      MakeDirsAdds(a, b[..|b| - 1]);
    }
  }

  /** The state of a walk: the levels down to here, what has been made, directories counted, includes hit. */
  datatype Progress = Progress(levels: seq<Level>, log: seq<Event>, dirs: nat, hit: seq<bool>)

  /** What a part of the walk does that chooses `chosen` and makes `events`; if it is `entered`, the levels
      above are made first. */
  ghost predicate Made(r: Rules, entered: bool, chosen: set<Path>, events: seq<Event>, a: Progress, b: Progress) {
    && b.levels == (if entered then AllCreated(a.levels) else a.levels)
    && b.log == a.log + (if entered then Uncreated(a.levels) else []) + events
    && b.dirs == a.dirs + MakeDirs(events)
    && |a.hit| == |r.includes| == |b.hit|
    && forall p: nat | p < |a.hit| :: b.hit[p] == (a.hit[p] || CoversSome(r, p, chosen))
  }

  /** The walk over one node. */
  ghost predicate Outcome(r: Rules, node: Node, path: Path, depth: nat, a: Progress, b: Progress) {
    var chosen := Chosen(r, node, path, depth);
    Made(r, chosen != {}, chosen, Events(r, node, path, depth), a, b)
  }

  /** The walk over the first `n` children of a directory, which is made up front if it is selected itself. */
  ghost predicate Among(r: Rules, dir: Node, n: nat, path: Path, depth: nat, selected: bool, a: Progress, b: Progress)
    requires dir.Dir? && n <= |dir.children|
  {
    var chosen := ChosenAmong(r, dir, n, path, depth);
    Made(r, selected || chosen != {}, chosen, EventsAmong(r, dir, n, path, depth), a, b)
  }

  lemma CoversSomeOfUnion(r: Rules, p: nat, a: set<Path>, b: set<Path>)
    ensures CoversSome(r, p, a + b) <==> CoversSome(r, p, a) || CoversSome(r, p, b)
  {
    hide Covers;
    if CoversSome(r, p, a) {
      var q :| q in a && Covers(r, p, q);
      assert q in a + b;
    }
    if CoversSome(r, p, b) {
      var q :| q in b && Covers(r, p, q);
      assert q in a + b;
    }
  }

  lemma MadeNext(r: Rules, entered: bool, chosen: set<Path>, events: seq<Event>, a: Progress, b: Progress,
                 chosen': set<Path>, events': seq<Event>, c: Progress)
    requires Made(r, entered, chosen, events, a, b) && Made(r, chosen' != {}, chosen', events', b, c)
    requires !entered ==> events == []
    ensures Made(r, entered || chosen' != {}, chosen + chosen', events + events', a, c)
  {
    hide CoversSome, MakeDirs, Uncreated;
    MakeDirsAdds(events, events');
    CreatedIsNotUncreated(AllCreated(a.levels));
    forall p: nat | p < |a.hit| ensures c.hit[p] == (a.hit[p] || CoversSome(r, p, chosen + chosen')) {
      CoversSomeOfUnion(r, p, chosen, chosen');
    }
  }

  lemma AmongNext(r: Rules, dir: Node, n: nat, path: Path, depth: nat, selected: bool, a: Progress, b: Progress, c: Progress)
    requires dir.Dir? && n < |dir.children| && Among(r, dir, n, path, depth, selected, a, b)
    requires Outcome(r, dir.children[n], path + [dir.children[n].name], depth + 1, b, c)
    ensures Among(r, dir, n + 1, path, depth, selected, a, c)
  {
    hide Made, Chosen, Events;
    var child, below := dir.children[n], path + [dir.children[n].name];
    var before, here := ChosenAmong(r, dir, n, path, depth), Chosen(r, child, below, depth + 1);
    if !selected && before == {} {
      NothingAmongNoEvents(r, dir, n, path, depth);
    }
    MadeNext(r, selected || before != {}, before, EventsAmong(r, dir, n, path, depth), a, b,
             here, Events(r, child, below, depth + 1), c);
    assert (selected || before + here != {}) == (selected || before != {} || here != {});
  }

  /** The node is selected and its levels have just been made: the rest of its walk completes the outcome. */
  lemma AfterOpening(r: Rules, node: Node, path: Path, depth: nat, a: Progress, mid: Progress, b: Progress)
    requires Selected(r, path) && !ExcludedAt(r, path) && Outcome(r, node, path, depth, mid, b)
    requires mid.levels == AllCreated(a.levels) && mid.log == a.log + Uncreated(a.levels) && mid.dirs == a.dirs
    requires |mid.hit| == |a.hit| && forall p: nat | p < |a.hit| :: mid.hit[p] == (a.hit[p] || Covers(r, p, path))
    ensures Outcome(r, node, path, depth, a, b)
  {
    hide Covers, Uncreated, MakeDirs, Events;
    assert path in Chosen(r, node, path, depth);
    CreatedIsNotUncreated(AllCreated(a.levels));
  }

  lemma NothingDone(r: Rules, node: Node, path: Path, depth: nat, a: Progress)
    requires Chosen(r, node, path, depth) == {} && |a.hit| == |r.includes|
    ensures Outcome(r, node, path, depth, a, a)
  {
    NothingChosenNoEvents(r, node, path, depth);
  }

  lemma AmongNothing(r: Rules, dir: Node, path: Path, depth: nat, selected: bool, a: Progress, b: Progress)
    requires dir.Dir? && |a.hit| == |r.includes| && b.dirs == a.dirs && b.hit == a.hit
    requires b.levels == if selected then AllCreated(a.levels) else a.levels
    requires b.log == a.log + if selected then Uncreated(a.levels) else []
    ensures Among(r, dir, 0, path, depth, selected, a, b)
  {
  }

  lemma LeafOutcome(r: Rules, node: Node, path: Path, depth: nat, a: Progress, b: Progress)
    requires !(node.Dir? && depth < MAX_TREE_DEPTH) && !ExcludedAt(r, path) && |a.hit| == |r.includes|
    requires Selected(r, path) || node.Dir? || node.Unknown?
    requires Selected(r, path) ==> Counted(r, a.hit, path) && AllCreated(a.levels) == a.levels && Uncreated(a.levels) == []
    requires b == a.(log := a.log + if node.File? then [MakeFile(path)] else if node.Symlink? then [MakeLink(path)] else [])
    ensures Outcome(r, node, path, depth, a, b)
  {
    hide Covers, Decision;
    var own := if Selected(r, path) then {path} else {};
    assert Chosen(r, node, path, depth) == own;
    forall p: nat | p < |a.hit| ensures b.hit[p] == (a.hit[p] || CoversSome(r, p, own)) {
      CoversOwn(r, p, path);
    }
    assert MakeDirs([MakeFile(path)]) == 0 && MakeDirs([MakeLink(path)]) == 0 by { NoDirs(path); }
  }

  lemma NoDirs(path: Path)
    ensures MakeDirs([MakeFile(path)]) == 0 && MakeDirs([MakeLink(path)]) == 0
  {
    var file, link := [MakeFile(path)], [MakeLink(path)];
    assert file[..0] == [] && link[..0] == [];
  }

  lemma UncreatedSnoc(ls: seq<Level>, path: Path)
    ensures Uncreated(ls + [Level(path, true, false)]) == Uncreated(ls) + [MakeDir(path)]
    ensures AllCreated(ls + [Level(path, true, false)])[..|ls|] == AllCreated(ls)
    ensures AllCreated(ls + [Level(path, true, false)])[|ls|] == Level(path, true, true)
  {
    assert (ls + [Level(path, true, false)])[..|ls|] == ls;
  }

  lemma MadeDirectory(r: Rules, selected: bool, path: Path, below: set<Path>, events: seq<Event>,
                      a: Progress, inside: Progress, b: Progress)
    requires Made(r, selected || below != {}, below, events, a.(levels := a.levels + [Level(path, true, false)]), inside)
    requires selected ==> Counted(r, a.hit, path)
    requires b == Progress(inside.levels[..|a.levels|], inside.log,
                           inside.dirs + (if inside.levels[|a.levels|].created then 1 else 0), inside.hit)
    requires !selected && below == {} ==> events == []
    ensures var own := if selected then {path} else {};
            Made(r, own + below != {}, own + below, if own + below != {} then [MakeDir(path)] + events else [], a, b)
  {
    hide Covers, CoversSome, MakeDirs, Uncreated;
    UncreatedSnoc(a.levels, path);
    MakeDirsAdds([MakeDir(path)], events);
    OneDir(path);
    assert MakeDirs([]) == 0 by { NoEvents(); }
    var own := if selected then {path} else {};
    assert own + below != {} <==> selected || below != {} by {
      assert selected ==> path in own + below;
      assert !selected ==> own + below == below;
    }
    forall p: nat | p < |a.hit| ensures b.hit[p] == (a.hit[p] || CoversSome(r, p, own + below)) {
      CoversSomeOfUnion(r, p, own, below);
      CoversOwn(r, p, path);
    }
  }

  lemma NoEvents()
    ensures MakeDirs([]) == 0
  {
  }

  /** A directory after its children: its level is gone, and it counts if it was made. */
  lemma DirDone(r: Rules, dir: Node, path: Path, depth: nat, a: Progress, inside: Progress, b: Progress)
    requires dir.Dir? && depth < MAX_TREE_DEPTH && !ExcludedAt(r, path) && |a.hit| == |r.includes|
    requires Among(r, dir, |dir.children|, path, depth, Selected(r, path),
                   a.(levels := a.levels + [Level(path, true, false)]), inside)
    requires Selected(r, path) ==> Counted(r, a.hit, path)
    requires |inside.levels| == |a.levels| + 1
    requires b == Progress(inside.levels[..|a.levels|], inside.log,
                           inside.dirs + (if inside.levels[|a.levels|].created then 1 else 0), inside.hit)
    ensures Outcome(r, dir, path, depth, a, b)
  {
    hide Made, Selected, ExcludedAt, Counted;
    var n := |dir.children|;
    var below := ChosenAmong(r, dir, n, path, depth);
    var events := EventsAmong(r, dir, n, path, depth);
    if !Selected(r, path) && below == {} {
      NothingAmongNoEvents(r, dir, n, path, depth);
    }
    MadeDirectory(r, Selected(r, path), path, below, events, a, inside, b);
    assert Chosen(r, dir, path, depth) == (if Selected(r, path) then {path} else {}) + below;
  }

  lemma OneDir(path: Path)
    ensures MakeDirs([MakeDir(path)]) == 1
  {
    var one := [MakeDir(path)];
    assert one[..0] == [];
  }

  lemma CoversOwn(r: Rules, p: nat, path: Path)
    ensures CoversSome(r, p, {path}) <==> Covers(r, p, path)
    ensures !CoversSome(r, p, {})
  {
    assert path in {path};
  }

  // ---------- the dry run ----------

  class Plan {
    const select: Select
    /** The directories from the top down to where the walk stands. */
    var levels: seq<Level>
    /** What is reported, in order. */
    var log: seq<Event>
    var dirs: nat

    constructor (select: Select)
      ensures this.select == select && levels == [] && log == [] && dirs == 0
    {
      this.select, levels, log, dirs := select, [], [], 0;
    }

    ghost function Now(): Progress
      reads this, select
    {
      Progress(levels, log, dirs, select.hit)
    }

    /** Something is about to be written here: the levels down to here are made. */
    method Open()
      modifies `levels, `log
      ensures levels == AllCreated(old(levels)) && log == old(log) + Uncreated(old(levels))
    {
      ghost var before := levels;
      for i := 0 to |levels|
        invariant |levels| == |before| && forall j | 0 <= j < |levels| ::
                    levels[j] == if j < i then before[j].(created := true) else before[j]
        invariant log == old(log) + Uncreated(before[..i])
      {
        assert before[..i + 1][..i] == before[..i];
        var level := levels[i];
        if !level.created {
          levels := levels[i := level.(created := true)];
          if level.counted {
            log := log + [MakeDir(level.path)];
          }
        }
      }
      assert before[..|before|] == before;
    }

    method PlanNode(node: Node, path: Path, depth: nat, pos: Pos)
      requires select.Stands(pos, path) && !ExcludedAt(select.rules, path)
      requires pos.selected || node.Dir? || node.Unknown?
      requires pos.selected ==> Counted(select.rules, select.hit, path)
      requires pos.selected ==> forall i | 0 <= i < |levels| :: levels[i].created
      modifies this, select`hit
      ensures select.Valid() && Outcome(select.rules, node, path, depth, old(Now()), Now())
      decreases node, 2
    {
      hide Covers, Decision, Outcome, Counted, Chosen, Events;
      if node.Dir? && depth < MAX_TREE_DEPTH {
        PlanDir(node, path, depth, pos);
      } else {
        ghost var a := Now();
        CreatedHere(levels, pos.selected);
        if node.File? {
          Open();
          log := log + [MakeFile(path)];
        } else if node.Symlink? {
          Open();
          log := log + [MakeLink(path)];
        }
        LeafOutcome(select.rules, node, path, depth, a, Now());
      }
    }

    method PlanDir(node: Node, path: Path, depth: nat, pos: Pos)
      requires node.Dir? && depth < MAX_TREE_DEPTH
      requires select.Stands(pos, path) && !ExcludedAt(select.rules, path)
      requires pos.selected ==> Counted(select.rules, select.hit, path)
      modifies this, select`hit
      ensures select.Valid() && Outcome(select.rules, node, path, depth, old(Now()), Now())
      decreases node, 1
    {
      hide Covers, Decision, Made, Outcome, Uncreated, Counted;
      ghost var a := Now();
      levels := levels + [Level(path, true, false)];
      ghost var top := Now();
      if pos.selected {
        Open();
      }
      AmongNothing(select.rules, node, path, depth, pos.selected, top, Now());
      for k := 0 to |node.children|
        invariant select.Stands(pos, path) && Among(select.rules, node, k, path, depth, pos.selected, top, Now())
      {
        ghost var before := Now();
        PlanChild(node, k, path, depth, pos);
        AmongNext(select.rules, node, k, path, depth, pos.selected, top, before, Now());
      }
      ghost var inside := Now();
      assert |levels| == |top.levels| by { LevelsKept(select.rules, node, path, depth, pos.selected, top, inside); }
      var created := levels[|levels| - 1].created;
      levels := levels[..|levels| - 1];
      if created {
        dirs := dirs + 1;
      }
      DirDone(select.rules, node, path, depth, a, inside, Now());
    }

    method PlanChild(dir: Node, k: nat, path: Path, depth: nat, pos: Pos)
      requires dir.Dir? && k < |dir.children| && select.Stands(pos, path)
      modifies this, select`hit
      ensures select.Stands(pos, path)
      ensures Outcome(select.rules, dir.children[k], path + [dir.children[k].name], depth + 1, old(Now()), Now())
      decreases dir, 0
    {
      hide Covers, Decision, Uncreated, Counted, Chosen, Events;
      var child := dir.children[k];
      var below := path + [child.name];
      ghost var a := Now();
      var childPos := select.Visit(pos, child, path, depth + 1);
      if childPos.None? {
        NothingDone(select.rules, child, below, depth + 1, a);
        return;
      }
      if childPos.value.selected {
        Open();
      }
      ghost var mid := Now();
      assert forall i | 0 <= i < |levels| :: childPos.value.selected ==> levels[i].created;
      PlanNode(child, below, depth + 1, childPos.value);
      if childPos.value.selected {
        AfterOpening(select.rules, child, below, depth + 1, a, mid, Now());
      }
    }
  }

  lemma CreatedHere(ls: seq<Level>, all: bool)
    requires all ==> forall i | 0 <= i < |ls| :: ls[i].created
    ensures all ==> Uncreated(ls) == [] && AllCreated(ls) == ls
  {
    if all {
      CreatedIsNotUncreated(ls);
    }
  }

  lemma HitsGrow(r: Rules, node: Node, path: Path, depth: nat, a: Progress, b: Progress)
    requires Outcome(r, node, path, depth, a, b)
    ensures |a.hit| == |b.hit| && forall p | 0 <= p < |a.hit| :: a.hit[p] ==> b.hit[p]
  {
  }

  lemma LevelsKept(r: Rules, dir: Node, path: Path, depth: nat, selected: bool, a: Progress, b: Progress)
    requires dir.Dir? && Among(r, dir, |dir.children|, path, depth, selected, a, b)
    ensures |b.levels| == |a.levels|
  {
  }

  // ---------- the real restore ----------

  /** A directory that is made when something first goes into it, after the one above it. */
  class PendingDir {
    const above: PendingDir?
    const path: Path
    const counted: bool
    var handle: bool
    /** From the top down to this one. */
    ghost const chain: seq<PendingDir>

    /** How the directories hang together; nothing of it ever changes. */
    ghost predicate Linked() {
      && |chain| > 0 && chain[|chain| - 1] == this
      && above == (if |chain| == 1 then null else chain[|chain| - 2])
      && (forall i | 0 <= i < |chain| :: chain[i].chain == chain[..i + 1])
      && (forall i | 1 <= i < |chain| :: chain[i].above == chain[i - 1])
      && chain[0].above == null
      && (forall i, j | 0 <= i < j < |chain| :: chain[i] != chain[j])
    }

    /** No directory is made before the one above it. */
    ghost predicate Valid()
      reads this, chain
    {
      Linked() && forall i, j | 0 <= i < j < |chain| :: chain[j].handle ==> chain[i].handle
    }

    ghost function Levels(): (ls: seq<Level>)
      reads this, chain
      ensures |ls| == |chain|
      ensures forall i | 0 <= i < |ls| :: ls[i] == Level(chain[i].path, chain[i].counted, chain[i].handle)
    {
      seq(|chain|, i requires 0 <= i < |chain| reads chain =>
        Level(chain[i].path, chain[i].counted, chain[i].handle))
    }

    /** The place the restore starts from. */
    constructor Base(path: Path)
      ensures Valid() && Levels() == [Level(path, false, false)] && chain == [this]
    {
      above, this.path, counted, handle := null, path, false, false;
      chain := [this];
    }

    constructor Child(parent: PendingDir, path: Path)
      requires parent.Valid()
      ensures Valid() && chain == parent.chain + [this] && Levels() == parent.Levels() + [Level(path, true, false)]
    {
      above, this.path, counted, handle := parent, path, true, false;
      chain := parent.chain + [this];
      new;
      assert forall i | 0 <= i < |parent.chain| :: parent.chain[i].chain == parent.chain[..i + 1] == chain[..i + 1];
    }

    /** Makes this directory, unless it is there; the ones above first. */
    method Ensure() returns (made: seq<Event>)
      requires Valid()
      modifies chain
      ensures Valid() && Levels() == AllCreated(old(Levels())) && made == Uncreated(old(Levels()))
      decreases |chain|
    {
      ghost var before := Levels();
      if handle {
        CreatedIsNotUncreated(before);
        return [];
      }
      hide Linked, Uncreated, AllCreated;
      made := [];
      ghost var front := before[..|before| - 1];
      if above != null {
        AboveIsFront(this);
        made := above.Ensure();
        AboveIsMade(this);
      } else {
        NothingAbove(this);
      }
      assert made == Uncreated(front);
      handle := true;
      UncreatedOf(before);
      if counted {
        made := made + [MakeDir(path)];
      }
      AllMade(this);
    }
  }

  lemma NothingAbove(d: PendingDir)
    requires d.Linked() && d.above == null
    ensures |d.chain| == 1 && d.chain[0] == d && Uncreated([]) == []
  {
  }

  lemma UncreatedOf(ls: seq<Level>)
    requires ls != [] && !ls[|ls| - 1].created
    ensures Uncreated(ls) == Uncreated(ls[..|ls| - 1])
              + if ls[|ls| - 1].counted then [MakeDir(ls[|ls| - 1].path)] else []
  {
  }

  lemma AllMade(d: PendingDir)
    requires d.Linked() && forall i | 0 <= i < |d.chain| :: d.chain[i].handle
    ensures d.Valid() && forall i | 0 <= i < |d.chain| :: d.Levels()[i].created
  {
  }

  lemma AboveIsFront(d: PendingDir)
    requires d.Valid() && d.above != null
    ensures |d.chain| > 1 && d.above.Valid() && d.above.chain == d.chain[..|d.chain| - 1]
    ensures d.above.Levels() == d.Levels()[..|d.chain| - 1]
  {
    var n := |d.chain| - 1;
    assert d.chain[n - 1].chain == d.chain[..n];
    forall i | 0 <= i < n ensures d.chain[..n][i].chain == d.chain[..n][..i + 1] {
      assert d.chain[..n][..i + 1] == d.chain[..i + 1];
    }
  }

  lemma AboveIsMade(d: PendingDir)
    requires d.above != null && |d.chain| > 1 && d.above.chain == d.chain[..|d.chain| - 1]
    requires forall i | 0 <= i < |d.above.chain| :: d.above.Levels()[i].created
    ensures forall i | 0 <= i < |d.chain| - 1 :: d.chain[i].handle
  {
    forall i | 0 <= i < |d.chain| - 1 ensures d.chain[i].handle {
      assert d.above.chain[i] == d.chain[i] && d.above.Levels()[i].created;
    }
  }

  class Restore {
    const select: Select
    /** What has been written to the target, in order. */
    var log: seq<Event>
    var dirs: nat

    constructor (select: Select)
      ensures this.select == select && log == [] && dirs == 0
    {
      this.select, log, dirs := select, [], 0;
    }

    ghost function Now(dir: PendingDir): Progress
      reads this, select, dir, dir.chain
    {
      Progress(dir.Levels(), log, dirs, select.hit)
    }

    method Open(dir: PendingDir)
      requires dir.Valid()
      modifies `log, dir.chain
      ensures dir.Valid() && dir.Levels() == AllCreated(old(dir.Levels()))
      ensures log == old(log) + Uncreated(old(dir.Levels()))
    {
      var made := dir.Ensure();
      log := log + made;
    }

    method RestoreNode(dir: PendingDir, node: Node, path: Path, depth: nat, pos: Pos)
      requires dir.Valid() && select.Stands(pos, path) && !ExcludedAt(select.rules, path)
      requires pos.selected || node.Dir? || node.Unknown?
      requires pos.selected ==> Counted(select.rules, select.hit, path)
      requires pos.selected ==> forall i | 0 <= i < |dir.chain| :: dir.Levels()[i].created
      modifies `log, `dirs, select`hit, dir.chain
      ensures dir.Valid() && select.Valid()
      ensures Outcome(select.rules, node, path, depth, old(Now(dir)), Now(dir))
      decreases node, 3
    {
      hide Covers, Decision, Tracks, Outcome, Counted, Chosen, Events, PendingDir.Valid;
      if node.Dir? && depth < MAX_TREE_DEPTH {
        RestoreDir(dir, node, path, depth, pos);
      } else {
        ghost var a := Now(dir);
        CreatedHere(a.levels, pos.selected);
        if node.File? {
          Open(dir);
          log := log + [MakeFile(path)];
        } else if node.Symlink? {
          Open(dir);
          log := log + [MakeLink(path)];
        }
        LeafOutcome(select.rules, node, path, depth, a, Now(dir));
      }
    }

    method RestoreDir(parent: PendingDir, node: Node, path: Path, depth: nat, pos: Pos)
      requires node.Dir? && depth < MAX_TREE_DEPTH
      requires parent.Valid() && select.Stands(pos, path) && !ExcludedAt(select.rules, path)
      requires pos.selected ==> Counted(select.rules, select.hit, path)
      modifies `log, `dirs, select`hit, parent.chain
      ensures parent.Valid() && select.Valid()
      ensures Outcome(select.rules, node, path, depth, old(Now(parent)), Now(parent))
      decreases node, 2
    {
      hide Covers, Decision, Tracks, Made, Among, Outcome, Uncreated, Counted, Selected, ExcludedAt, PendingDir.Valid;
      ChainEnds(parent);
      ghost var a := Now(parent);
      var dir := new PendingDir.Child(parent, path);
      ghost var top := Now(dir);
      RestoreChildren(dir, node, path, depth, pos);
      ghost var inside := Now(dir);
      if dir.handle {
        dirs := dirs + 1;
      }
      ParentOf(parent, dir);
      DirDone(select.rules, node, path, depth, a, inside, Now(parent));
    }

    /** The directory itself first, if it is selected; then its children. */
    method RestoreChildren(dir: PendingDir, node: Node, path: Path, depth: nat, pos: Pos)
      requires node.Dir? && dir.Valid() && select.Stands(pos, path)
      modifies `log, `dirs, select`hit, dir.chain
      ensures dir.Valid() && select.Stands(pos, path)
      ensures Among(select.rules, node, |node.children|, path, depth, pos.selected, old(Now(dir)), Now(dir))
      decreases node, 1
    {
      hide Covers, Decision, Tracks, Made, Outcome, Uncreated, Counted, Selected, ExcludedAt, PendingDir.Valid;
      ghost var top := Now(dir);
      if pos.selected {
        Open(dir);
      }
      AmongNothing(select.rules, node, path, depth, pos.selected, top, Now(dir));
      for k := 0 to |node.children|
        invariant dir.Valid() && select.Stands(pos, path)
        invariant Among(select.rules, node, k, path, depth, pos.selected, top, Now(dir))
      {
        ghost var before := Now(dir);
        RestoreChild(dir, node, k, path, depth, pos);
        AmongNext(select.rules, node, k, path, depth, pos.selected, top, before, Now(dir));
      }
    }

    method RestoreChild(dir: PendingDir, node: Node, k: nat, path: Path, depth: nat, pos: Pos)
      requires node.Dir? && k < |node.children| && dir.Valid() && select.Stands(pos, path)
      modifies `log, `dirs, select`hit, dir.chain
      ensures dir.Valid() && select.Stands(pos, path)
      ensures Outcome(select.rules, node.children[k], path + [node.children[k].name], depth + 1, old(Now(dir)), Now(dir))
      decreases node, 0
    {
      hide Covers, Decision, Tracks, Uncreated, Counted, Chosen, Events, PendingDir.Valid, Selected, ExcludedAt, Outcome;
      var child := node.children[k];
      var below := path + [child.name];
      ghost var a := Now(dir);
      var childPos := select.Visit(pos, child, path, depth + 1);
      if childPos.None? {
        NothingDone(select.rules, child, below, depth + 1, a);
        return;
      }
      if childPos.value.selected {
        Open(dir);
      }
      ghost var mid := Now(dir);
      assert forall i | 0 <= i < |dir.Levels()| :: childPos.value.selected ==> dir.Levels()[i].created;
      if !childPos.value.selected {
        assert mid.hit == a.hit;
      }
      RestoreNode(dir, child, below, depth + 1, childPos.value);
      HitsGrow(select.rules, child, below, depth + 1, mid, Now(dir));
      if childPos.value.selected {
        AfterOpening(select.rules, child, below, depth + 1, a, mid, Now(dir));
      }
    }
  }

  lemma ChainEnds(d: PendingDir)
    requires d.Valid()
    ensures |d.chain| > 0 && d.chain[|d.chain| - 1] == d
  {
  }

  lemma ParentOf(parent: PendingDir, dir: PendingDir)
    requires dir.Valid() && dir.chain == parent.chain + [dir] && |parent.chain| > 0
    requires parent.chain[|parent.chain| - 1] == parent
    ensures parent.Valid() && parent.Levels() == dir.Levels()[..|parent.chain|]
    ensures dir.Levels()[|parent.chain|].created == dir.handle
  {
    assert dir.above == dir.chain[|dir.chain| - 2] == parent;
    AboveIsFront(dir);
  }
}
