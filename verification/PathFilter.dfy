/** Path patterns matched one component at a time (filter.rs). */
module PathFiltering {
  import opened Wrappers
  import opened Glob

  type Name = seq<Byte>

  type Path = seq<Name>

  datatype Comp =
    /** `**` */
    | AnyDepth
    | Literal(bytes: Name)
    | Segment(tokens: seq<Token>)

  datatype Pattern = Pattern(comps: seq<Comp>, negated: bool, fold: bool)

  // ---------- the reference matcher ----------

  predicate One(p: Pattern, c: Comp, name: Name, cases: CaseTable)
    requires !c.AnyDepth?
  {
    match c
    case Literal(bytes) => bytes == name
    case Segment(tokens) => RefGlob(tokens, UnitsFrom(name, 0), p.fold, cases)
  }

  /** The components match the whole path; `**` takes any number of names. */
  predicate RefPath(p: Pattern, cs: seq<Comp>, path: Path, cases: CaseTable)
    decreases |cs|
  {
    if cs == [] then path == []
    else if cs[0].AnyDepth? then exists k :: 0 <= k <= |path| && RefPath(p, cs[1..], path[k..], cases)
    else path != [] && One(p, cs[0], path[0], cases) && RefPath(p, cs[1..], path[1..], cases)
  }

  lemma {:induction false} SnocOne(p: Pattern, cs: seq<Comp>, c: Comp, path: Path, name: Name, cases: CaseTable)
    requires !c.AnyDepth?
    ensures RefPath(p, cs + [c], path + [name], cases) <==> RefPath(p, cs, path, cases) && One(p, c, name, cases)
    decreases |cs|
  {
    var all, full := cs + [c], path + [name];
    if cs == [] {
      assert all[1..] == [];
      assert full[0] == (if path == [] then name else path[0]);
    } else {
      assert all[0] == cs[0] && all[1..] == cs[1..] + [c];
      if cs[0].AnyDepth? {
        forall k | 0 <= k <= |path|
          ensures RefPath(p, all[1..], full[k..], cases) <==>
                  RefPath(p, cs[1..], path[k..], cases) && One(p, c, name, cases)
        {
          assert full[k..] == path[k..] + [name];
          SnocOne(p, cs[1..], c, path[k..], name, cases);
        }
        assert full[|full|..] == [];
        NeedsAName(p, cs[1..], c, cases);
        if RefPath(p, all, full, cases) {
          var k :| 0 <= k <= |full| && RefPath(p, all[1..], full[k..], cases);
          assert k <= |path|;
        }
      } else if path == [] {
        assert full[1..] == [];
        NeedsAName(p, cs[1..], c, cases);
      } else {
        assert full[0] == path[0] && full[1..] == path[1..] + [name];
        SnocOne(p, cs[1..], c, path[1..], name, cases);
      }
    }
  }

  lemma {:induction false} NeedsAName(p: Pattern, cs: seq<Comp>, c: Comp, cases: CaseTable)
    requires !c.AnyDepth?
    ensures !RefPath(p, cs + [c], [], cases)
    decreases |cs|
  {
    var none: Path := [];
    if cs != [] {
      assert (cs + [c])[1..] == cs[1..] + [c];
      NeedsAName(p, cs[1..], c, cases);
      assert forall k | 0 <= k <= |none| :: none[k..] == [];
    }
  }

  lemma {:induction false} SnocAny(p: Pattern, cs: seq<Comp>, path: Path, cases: CaseTable)
    ensures RefPath(p, cs + [AnyDepth], path, cases) <==>
            exists k :: 0 <= k <= |path| && RefPath(p, cs, path[..k], cases)
    decreases |cs|
  {
    var all := cs + [AnyDepth];
    if cs == [] {
      assert all[1..] == [] && path[|path|..] == [] && path[..0] == [];
      assert RefPath(p, all[1..], path[|path|..], cases);
      assert RefPath(p, cs, path[..0], cases);
    } else {
      assert all[0] == cs[0] && all[1..] == cs[1..] + [AnyDepth];
      if cs[0].AnyDepth? {
        if RefPath(p, all, path, cases) {
          var k :| 0 <= k <= |path| && RefPath(p, all[1..], path[k..], cases);
          SnocAny(p, cs[1..], path[k..], cases);
          var l :| 0 <= l <= |path[k..]| && RefPath(p, cs[1..], path[k..][..l], cases);
          assert path[k..][..l] == path[..k + l][k..];
          assert RefPath(p, cs, path[..k + l], cases);
        }
        if k :| 0 <= k <= |path| && RefPath(p, cs, path[..k], cases) {
          var l :| 0 <= l <= |path[..k]| && RefPath(p, cs[1..], path[..k][l..], cases);
          assert path[..k][l..] == path[l..][..k - l];
          SnocAny(p, cs[1..], path[l..], cases);
          assert RefPath(p, all[1..], path[l..], cases);
        }
      } else if path != [] {
        SnocAny(p, cs[1..], path[1..], cases);
        if RefPath(p, all, path, cases) {
          var l :| 0 <= l <= |path[1..]| && RefPath(p, cs[1..], path[1..][..l], cases);
          assert path[..l + 1][1..] == path[1..][..l];
          assert RefPath(p, cs, path[..l + 1], cases);
        }
        if k :| 0 <= k <= |path| && RefPath(p, cs, path[..k], cases) {
          assert path[..k][1..] == path[1..][..k - 1];
        }
      } else {
        assert forall k | 0 <= k <= |path| :: path[..k] == [];
      }
    }
  }

  /** `**` at the end takes one name more, or starts here. */
  lemma SnocAnyName(p: Pattern, cs: seq<Comp>, path: Path, name: Name, cases: CaseTable)
    ensures RefPath(p, cs + [AnyDepth], path + [name], cases) <==>
            RefPath(p, cs + [AnyDepth], path, cases) || RefPath(p, cs, path + [name], cases)
  {
    var full := path + [name];
    SnocAny(p, cs, path, cases);
    SnocAny(p, cs, full, cases);
    assert forall k | 0 <= k <= |path| :: full[..k] == path[..k];
    assert full[..|full|] == full;
  }

  lemma SnocAnyNothing(p: Pattern, cs: seq<Comp>, path: Path, cases: CaseTable)
    requires RefPath(p, cs, path, cases)
    ensures RefPath(p, cs + [AnyDepth], path, cases)
  {
    SnocAny(p, cs, path, cases);
    assert path[..|path|] == path;
  }

  // ---------- positions in a pattern ----------

  /** Position `i` is waiting after `path`: the components before it have matched the whole path. A
      waiting `**` may have taken some of the names itself. */
  ghost predicate Waiting(p: Pattern, i: nat, path: Path, cases: CaseTable)
    requires i <= |p.comps|
  {
    if i < |p.comps| && p.comps[i].AnyDepth? then RefPath(p, p.comps[..i + 1], path, cases)
    else RefPath(p, p.comps[..i], path, cases)
  }

  /** From `i` one gets to `j` by letting `**` components match nothing. */
  predicate Skips(p: Pattern, i: nat, j: nat) {
    i <= j <= |p.comps| && forall k | i <= k < j :: p.comps[k].AnyDepth?
  }

  /** One name moves position `i` to the result, if it matches. */
  predicate MovesTo(p: Pattern, i: nat, name: Name, next: nat, cases: CaseTable) {
    && i < |p.comps|
    && if p.comps[i].AnyDepth? then next == i else next == i + 1 && One(p, p.comps[i], name, cases)
  }

  lemma {:induction false} SkippingKeepsWaiting(p: Pattern, i: nat, j: nat, path: Path, cases: CaseTable)
    requires Skips(p, i, j) && RefPath(p, p.comps[..i], path, cases)
    ensures RefPath(p, p.comps[..j], path, cases)
    decreases j
  {
    if i < j {
      SkippingKeepsWaiting(p, i, j - 1, path, cases);
      assert p.comps[..j] == p.comps[..j - 1] + [AnyDepth];
      SnocAnyNothing(p, p.comps[..j - 1], path, cases);
    } else {
      assert p.comps[..i] == p.comps[..j];
    }
  }

  lemma ReachedIsWaiting(p: Pattern, i: nat, j: nat, path: Path, cases: CaseTable)
    requires Skips(p, i, j) && RefPath(p, p.comps[..i], path, cases)
    ensures Waiting(p, j, path, cases)
  {
    if j < |p.comps| && p.comps[j].AnyDepth? {
      SkippingKeepsWaiting(p, i, j + 1, path, cases);
    } else {
      SkippingKeepsWaiting(p, i, j, path, cases);
    }
  }

  /** Soundness of a step: what a waiting position moves and skips to is waiting. */
  lemma StepReaches(p: Pattern, i: nat, next: nat, j: nat, path: Path, name: Name, cases: CaseTable)
    requires i < |p.comps| && Waiting(p, i, path, cases)
    requires MovesTo(p, i, name, next, cases) && Skips(p, next, j)
    ensures Waiting(p, j, path + [name], cases)
  {
    assert p.comps[..i + 1] == p.comps[..i] + [p.comps[i]];
    if p.comps[i].AnyDepth? {
      SnocAnyName(p, p.comps[..i], path, name, cases);
      if j > i {
        assert Skips(p, i + 1, j);
        ReachedIsWaiting(p, i + 1, j, path + [name], cases);
      }
    } else {
      SnocOne(p, p.comps[..i], p.comps[i], path, name, cases);
      ReachedIsWaiting(p, i + 1, j, path + [name], cases);
    }
  }

  ghost predicate CameFrom(p: Pattern, j: nat, path: Path, name: Name, cases: CaseTable) {
    exists i: nat, next: nat :: i < |p.comps| && Waiting(p, i, path, cases)
                      && MovesTo(p, i, name, next, cases) && Skips(p, next, j)
  }

  /** Completeness of a step, first for positions whose components match exactly. */
  lemma {:induction false} MatchCameFrom(p: Pattern, m: nat, path: Path, name: Name, cases: CaseTable)
    requires m <= |p.comps| && RefPath(p, p.comps[..m], path + [name], cases)
    ensures CameFrom(p, m, path, name, cases)
    decreases m
  {
    assert m > 0;
    var i, c := m - 1, p.comps[m - 1];
    assert p.comps[..m] == p.comps[..i] + [c];
    if c.AnyDepth? {
      SnocAnyName(p, p.comps[..i], path, name, cases);
      if RefPath(p, p.comps[..i] + [AnyDepth], path, cases) {
        assert Waiting(p, i, path, cases) && MovesTo(p, i, name, i, cases) && Skips(p, i, m);
      } else {
        MatchCameFrom(p, i, path, name, cases);
        var h: nat, next: nat :| h < |p.comps| && Waiting(p, h, path, cases)
                       && MovesTo(p, h, name, next, cases) && Skips(p, next, i);
        assert Skips(p, next, m);
      }
    } else {
      SnocOne(p, p.comps[..i], c, path, name, cases);
      assert Waiting(p, i, path, cases) && MovesTo(p, i, name, m, cases) && Skips(p, m, m);
    }
  }

  /** Waiting after one more name means coming from a position that waited before. */
  lemma WaitingStep(p: Pattern, j: nat, path: Path, name: Name, cases: CaseTable)
    requires j <= |p.comps|
    ensures Waiting(p, j, path + [name], cases) <==> CameFrom(p, j, path, name, cases)
  {
    if Waiting(p, j, path + [name], cases) {
      if j < |p.comps| && p.comps[j].AnyDepth? {
        assert p.comps[..j + 1] == p.comps[..j] + [AnyDepth];
        SnocAnyName(p, p.comps[..j], path, name, cases);
        if RefPath(p, p.comps[..j] + [AnyDepth], path, cases) {
          assert Waiting(p, j, path, cases) && MovesTo(p, j, name, j, cases) && Skips(p, j, j);
        } else {
          MatchCameFrom(p, j, path, name, cases);
        }
      } else {
        MatchCameFrom(p, j, path, name, cases);
      }
    }
    if CameFrom(p, j, path, name, cases) {
      var i: nat, next: nat :| i < |p.comps| && Waiting(p, i, path, cases)
                     && MovesTo(p, i, name, next, cases) && Skips(p, next, j);
      StepReaches(p, i, next, j, path, name, cases);
    }
  }

  lemma WaitingAtTop(p: Pattern, j: nat, cases: CaseTable)
    requires j <= |p.comps|
    ensures Waiting(p, j, [], cases) <==> Skips(p, 0, j)
  {
    var none: Path := [];
    if Skips(p, 0, j) {
      assert p.comps[..0] == [];
      ReachedIsWaiting(p, 0, j, none, cases);
    }
    if Waiting(p, j, [], cases) {
      OnlySkipsTakeNothing(p, p.comps[..if j < |p.comps| && p.comps[j].AnyDepth? then j + 1 else j], cases);
    }
  }

  lemma {:induction false} OnlySkipsTakeNothing(p: Pattern, cs: seq<Comp>, cases: CaseTable)
    requires RefPath(p, cs, [], cases)
    ensures forall k | 0 <= k < |cs| :: cs[k].AnyDepth?
    decreases |cs|
  {
    var none: Path := [];
    if cs != [] {
      assert none[0..] == none;
      OnlySkipsTakeNothing(p, cs[1..], cases);
    }
  }

  /** A pattern that matches below a node is waiting at the node. */
  lemma {:induction false} MatchBelowIsWaiting(p: Pattern, path: Path, more: Path, j: nat, cases: CaseTable)
    requires more != [] && j <= |p.comps| && Waiting(p, j, path + more, cases)
    ensures exists i: nat :: i < |p.comps| && Waiting(p, i, path, cases)
    decreases |more|
  {
    var front, name := more[..|more| - 1], more[|more| - 1];
    assert path + more == (path + front) + [name];
    WaitingStep(p, j, path + front, name, cases);
    var i: nat, next: nat :| i < |p.comps| && Waiting(p, i, path + front, cases)
                   && MovesTo(p, i, name, next, cases) && Skips(p, next, j);
    if front == [] {
      assert path + front == path;
    } else {
      MatchBelowIsWaiting(p, path, front, i, cases);
    }
  }

  // ---------- the state of a walk ----------

  /** Pattern number `pattern` compares component `comp` next. */
  datatype At = At(pattern: nat, comp: nat)

  /** Entries are grouped by pattern, the groups in increasing order. */
  ghost predicate Grouped(active: seq<At>) {
    forall a, b | 0 <= a < b < |active| :: active[a].pattern <= active[b].pattern
  }

  ghost predicate NoRepeats(active: seq<At>) {
    forall a, b | 0 <= a < b < |active| :: active[a] != active[b]
  }

  ghost predicate Increasing(ms: seq<nat>) {
    forall a, b | 0 <= a < b < |ms| :: ms[a] < ms[b]
  }

  class FilterState {
    var active: seq<At>
    var matched: seq<nat>
    var decision: Option<bool>
    /** Some active pattern is not negated. */
    var positiveAlive: bool

    /** Only patterns up to `p` have been added. */
    ghost predicate UpTo(p: nat)
      reads this
    {
      && Grouped(active) && NoRepeats(active) && Increasing(matched)
      && (forall e | e in active :: e.pattern <= p)
      && (forall m | m in matched :: m <= p)
    }

    constructor ()
      ensures active == [] && matched == [] && decision == None && !positiveAlive
    {
      active, matched, decision, positiveAlive := [], [], None, false;
    }

    predicate IsMatch()
      reads this
    {
      decision == Some(true)
    }

    predicate MayMatchBelow()
      reads this
    {
      positiveAlive
    }

    /** Looks at the last group only. */
    method InLastGroup(p: nat, i: nat) returns (seen: bool)
      requires UpTo(p)
      ensures seen <==> At(p, i) in active
    {
      var k := |active|;
      while k > 0 && active[k - 1].pattern == p
        invariant 0 <= k <= |active|
        invariant forall a | k <= a < |active| :: active[a] != At(p, i)
      {
        if active[k - 1].comp == i {
          assert active[k - 1] == At(p, i);
          return true;
        }
        k := k - 1;
      }
      assert forall a | 0 <= a < k :: active[a].pattern <= active[k - 1].pattern && active[k - 1] in active;
      seen := false;
    }

    method Activate(p: nat, i: nat, negated: bool)
      requires UpTo(p)
      modifies `active, `positiveAlive
      ensures UpTo(p)
      ensures forall e :: e in active <==> e in old(active) || e == At(p, i)
      ensures positiveAlive == (old(positiveAlive) || (!negated && At(p, i) !in old(active)))
    {
      var seen := InLastGroup(p, i);
      if !seen {
        active := active + [At(p, i)];
        positiveAlive := positiveAlive || !negated;
      }
    }

    method Match(p: nat)
      requires UpTo(p)
      modifies `matched
      ensures UpTo(p)
      ensures forall m :: m in matched <==> m in old(matched) || m == p
    {
      if matched == [] || matched[|matched| - 1] != p {
        assert matched != [] ==> matched[|matched| - 1] in matched;
        matched := matched + [p];
      }
    }

    /** Pattern `p` has come to component `from`; a `**` there may also match nothing. */
    method Add(p: nat, from: nat, pattern: Pattern)
      requires UpTo(p) && from <= |pattern.comps|
      modifies `active, `matched, `positiveAlive
      ensures UpTo(p)
      ensures forall e :: e in active <==>
                (e in old(active) || (e.pattern == p && e.comp < |pattern.comps| && Skips(pattern, from, e.comp)))
      ensures forall m :: m in matched <==>
                (m in old(matched) || (m == p && Skips(pattern, from, |pattern.comps|)))
      ensures positiveAlive == (old(positiveAlive) || (!pattern.negated && exists e :: e in active && e !in old(active)))
    {
      var i := from;
      while i < |pattern.comps|
        invariant from <= i <= |pattern.comps| && Skips(pattern, from, i) && UpTo(p)
        invariant matched == old(matched)
        invariant forall e :: e in active <==> e in old(active) || (e.pattern == p && from <= e.comp < i)
        invariant positiveAlive ==
                    (old(positiveAlive) || (!pattern.negated && exists e :: e in active && e !in old(active)))
      {
        Activate(p, i, pattern.negated);
        if !pattern.comps[i].AnyDepth? {
          return;
        }
        i := i + 1;
      }
      Match(p);
    }
  }

  // ---------- walking a path ----------

  /** Pattern `m` matches the node at `path`. */
  ghost predicate PatternHits(ps: seq<Pattern>, m: nat, path: Path, cases: CaseTable) {
    m < |ps| && RefPath(ps[m], ps[m].comps, path, cases)
  }

  /** Among the first `n` patterns the last that matches the node decides: not negated means yes. */
  ghost function DecisionAmong(ps: seq<Pattern>, n: nat, path: Path, cases: CaseTable): Option<bool>
    requires n <= |ps|
  {
    if n == 0 then None
    else if PatternHits(ps, n - 1, path, cases) then Some(!ps[n - 1].negated)
    else DecisionAmong(ps, n - 1, path, cases)
  }

  ghost function Decision(ps: seq<Pattern>, path: Path, cases: CaseTable): Option<bool> {
    DecisionAmong(ps, |ps|, path, cases)
  }

  /** The state says about the node at `path` what the reference matcher says. */
  ghost predicate Tracks(ps: seq<Pattern>, st: FilterState, path: Path, cases: CaseTable)
    reads st
  {
    && Grouped(st.active) && NoRepeats(st.active) && Increasing(st.matched)
    && (forall e: At :: e in st.active <==> IsWaiting(ps, e, path, cases))
    && (forall m: nat :: m in st.matched <==> PatternHits(ps, m, path, cases))
    && (path != [] ==> st.decision == Decision(ps, path, cases))
    && (st.positiveAlive <==> SomePositive(ps, st.active))
  }

  ghost predicate IsWaiting(ps: seq<Pattern>, e: At, path: Path, cases: CaseTable) {
    e.pattern < |ps| && e.comp < |ps[e.pattern].comps| && Waiting(ps[e.pattern], e.comp, path, cases)
  }

  ghost predicate SomePositive(ps: seq<Pattern>, active: seq<At>) {
    exists e: At :: e in active && e.pattern < |ps| && !ps[e.pattern].negated
  }

  lemma {:induction false} DecisionByHighest(ps: seq<Pattern>, n: nat, m: nat, path: Path, cases: CaseTable)
    requires m < n <= |ps| && PatternHits(ps, m, path, cases)
    requires forall q: nat | m < q :: !PatternHits(ps, q, path, cases)
    ensures DecisionAmong(ps, n, path, cases) == Some(!ps[m].negated)
  {
    if m < n - 1 {
      DecisionByHighest(ps, n - 1, m, path, cases);
    }
  }

  lemma {:induction false} NoDecision(ps: seq<Pattern>, n: nat, path: Path, cases: CaseTable)
    requires n <= |ps| && forall q: nat :: !PatternHits(ps, q, path, cases)
    ensures DecisionAmong(ps, n, path, cases) == None
  {
    if n > 0 {
      NoDecision(ps, n - 1, path, cases);
    }
  }

  ghost predicate Started(ps: seq<Pattern>, p: nat, st: FilterState)
    requires p <= |ps|
    reads st
  {
    && st.UpTo(p)
    && (forall e: At :: e in st.active <==>
          (e.pattern < p && e.comp < |ps[e.pattern].comps| && Skips(ps[e.pattern], 0, e.comp)))
    && (forall m: nat :: m in st.matched <==> (m < p && Skips(ps[m], 0, |ps[m].comps|)))
    && (st.positiveAlive <==> SomePositive(ps, st.active))
  }

  lemma TopIsTracked(ps: seq<Pattern>, st: FilterState, cases: CaseTable)
    requires Started(ps, |ps|, st)
    ensures Tracks(ps, st, [], cases)
  {
    forall e: At ensures e in st.active <==> IsWaiting(ps, e, [], cases) {
      if e.pattern < |ps| && e.comp < |ps[e.pattern].comps| {
        WaitingAtTop(ps[e.pattern], e.comp, cases);
      }
    }
    forall m: nat ensures m in st.matched <==> PatternHits(ps, m, [], cases) {
      if m < |ps| {
        WholePattern(ps[m], [], cases);
        WaitingAtTop(ps[m], |ps[m].comps|, cases);
      }
    }
  }

  method Start(ps: seq<Pattern>, cases: CaseTable) returns (st: FilterState)
    ensures fresh(st) && Tracks(ps, st, [], cases)
  {
    st := new FilterState();
    for p := 0 to |ps|
      invariant fresh(st) && Started(ps, p, st)
    {
      st.Add(p, 0, ps[p]);
    }
    TopIsTracked(ps, st, cases);
  }

  lemma WholePattern(p: Pattern, path: Path, cases: CaseTable)
    ensures RefPath(p, p.comps, path, cases) <==> Waiting(p, |p.comps|, path, cases)
  {
    assert p.comps[..|p.comps|] == p.comps;
  }

  // ---------- one component down ----------

  ghost predicate Goes(p: Pattern, i: nat, name: Name, j: nat, cases: CaseTable) {
    exists next: nat :: MovesTo(p, i, name, next, cases) && Skips(p, next, j)
  }

  /** One of the positions `done` leads to position `j` of pattern `m`. */
  ghost predicate Led(ps: seq<Pattern>, done: seq<At>, name: Name, m: nat, j: nat, cases: CaseTable) {
    m < |ps| && exists d: At :: d in done && d.pattern == m && Goes(ps[m], d.comp, name, j, cases)
  }

  lemma LedSnoc(ps: seq<Pattern>, done: seq<At>, d: At, name: Name, m: nat, j: nat, cases: CaseTable)
    requires m < |ps|
    ensures Led(ps, done + [d], name, m, j, cases) <==>
            (Led(ps, done, name, m, j, cases) || (d.pattern == m && Goes(ps[m], d.comp, name, j, cases)))
  {
    if Led(ps, done, name, m, j, cases) {
      var e: At :| e in done && e.pattern == m && Goes(ps[m], e.comp, name, j, cases);
      assert e in done + [d];
    }
    assert d in done + [d];
  }

  method Advance(ps: seq<Pattern>, next: FilterState, d: At, name: Name, cases: CaseTable)
    requires d.pattern < |ps| && d.comp < |ps[d.pattern].comps| && next.UpTo(d.pattern)
    modifies next`active, next`matched, next`positiveAlive
    ensures next.UpTo(d.pattern)
    ensures forall e: At :: e in next.active <==>
              (e in old(next.active) || (e.pattern == d.pattern && e.comp < |ps[d.pattern].comps|
                                         && Goes(ps[d.pattern], d.comp, name, e.comp, cases)))
    ensures forall m: nat :: m in next.matched <==>
              (m in old(next.matched) || (m == d.pattern
                                          && Goes(ps[d.pattern], d.comp, name, |ps[d.pattern].comps|, cases)))
    ensures next.positiveAlive == (old(next.positiveAlive)
              || (!ps[d.pattern].negated && exists e: At :: e in next.active && e !in old(next.active)))
  {
    var pattern := ps[d.pattern];
    var to := d.comp;
    match pattern.comps[d.comp] {
      case AnyDepth =>
      case Literal(bytes) =>
        if bytes != name {
          return;
        }
        to := d.comp + 1;
      case Segment(tokens) =>
        var ok := GlobMatch(tokens, name, pattern.fold, cases);
        if !ok {
          return;
        }
        to := d.comp + 1;
    }
    assert MovesTo(pattern, d.comp, name, to, cases);
    assert forall next: nat | MovesTo(pattern, d.comp, name, next, cases) :: next == to;
    next.Add(d.pattern, to, pattern);
  }

  /** What the positions `done` lead to. */
  ghost predicate Gathered(ps: seq<Pattern>, done: seq<At>, name: Name, active: seq<At>, matched: seq<nat>,
                           positiveAlive: bool, cases: CaseTable) {
    && (forall e: At :: e in active <==>
          (e.pattern < |ps| && e.comp < |ps[e.pattern].comps| && Led(ps, done, name, e.pattern, e.comp, cases)))
    && (forall m: nat :: m in matched <==> (m < |ps| && Led(ps, done, name, m, |ps[m].comps|, cases)))
    && (positiveAlive <==> SomePositive(ps, active))
  }

  ghost predicate Collected(ps: seq<Pattern>, done: seq<At>, name: Name, next: FilterState, cases: CaseTable)
    reads next
  {
    && Grouped(next.active) && NoRepeats(next.active) && Increasing(next.matched)
    && Gathered(ps, done, name, next.active, next.matched, next.positiveAlive, cases)
  }

  /** One more position `d` of the directory's state has been followed. */
  lemma GatheredSnoc(ps: seq<Pattern>, done: seq<At>, d: At, name: Name,
                     active: seq<At>, matched: seq<nat>, alive: bool,
                     active': seq<At>, matched': seq<nat>, alive': bool, cases: CaseTable)
    requires d.pattern < |ps| && d.comp < |ps[d.pattern].comps|
    requires Gathered(ps, done, name, active, matched, alive, cases)
    requires forall e: At :: e in active' <==>
               (e in active || (e.pattern == d.pattern && e.comp < |ps[d.pattern].comps|
                                && Goes(ps[d.pattern], d.comp, name, e.comp, cases)))
    requires forall m: nat :: m in matched' <==>
               (m in matched || (m == d.pattern && Goes(ps[d.pattern], d.comp, name, |ps[d.pattern].comps|, cases)))
    requires alive' == (alive || (!ps[d.pattern].negated && exists e: At :: e in active' && e !in active))
    ensures Gathered(ps, done + [d], name, active', matched', alive', cases)
  {
    forall e: At
      ensures e in active' <==> (e.pattern < |ps| && e.comp < |ps[e.pattern].comps|
                                 && Led(ps, done + [d], name, e.pattern, e.comp, cases))
    {
      if e.pattern < |ps| {
        LedSnoc(ps, done, d, name, e.pattern, e.comp, cases);
      }
    }
    forall m: nat ensures m in matched' <==> (m < |ps| && Led(ps, done + [d], name, m, |ps[m].comps|, cases)) {
      if m < |ps| {
        LedSnoc(ps, done, d, name, m, |ps[m].comps|, cases);
      }
    }
  }

  lemma CollectedIsTracked(ps: seq<Pattern>, st: FilterState, next: FilterState, path: Path, name: Name, cases: CaseTable)
    requires Tracks(ps, st, path, cases) && Collected(ps, st.active, name, next, cases)
    ensures forall e: At :: e in next.active <==> IsWaiting(ps, e, path + [name], cases)
    ensures forall m: nat :: m in next.matched <==> PatternHits(ps, m, path + [name], cases)
  {
    forall m: nat, j: nat | m < |ps| && j <= |ps[m].comps|
      ensures Led(ps, st.active, name, m, j, cases) <==> Waiting(ps[m], j, path + [name], cases)
    {
      WaitingStep(ps[m], j, path, name, cases);
      if CameFrom(ps[m], j, path, name, cases) {
        var i: nat, to: nat :| i < |ps[m].comps| && Waiting(ps[m], i, path, cases)
                               && MovesTo(ps[m], i, name, to, cases) && Skips(ps[m], to, j);
        assert IsWaiting(ps, At(m, i), path, cases) && Goes(ps[m], i, name, j, cases);
        assert At(m, i) in st.active;
      }
      if Led(ps, st.active, name, m, j, cases) {
        var d: At :| d in st.active && d.pattern == m && Goes(ps[m], d.comp, name, j, cases);
        assert IsWaiting(ps, d, path, cases);
      }
    }
    forall m: nat ensures m in next.matched <==> PatternHits(ps, m, path + [name], cases) {
      if m < |ps| {
        WholePattern(ps[m], path + [name], cases);
      }
    }
  }

  method MaxOf(ms: seq<nat>) returns (top: nat)
    requires ms != []
    ensures top in ms && forall x | x in ms :: x <= top
  {
    top := ms[0];
    for k := 1 to |ms|
      invariant top in ms && forall a | 0 <= a < k :: ms[a] <= top
    {
      if ms[k] > top {
        top := ms[k];
      }
    }
  }

  lemma NothingGathered(ps: seq<Pattern>, name: Name, cases: CaseTable)
    ensures Gathered(ps, [], name, [], [], false, cases)
  {
  }

  method Follow(ps: seq<Pattern>, st: FilterState, name: Name, cases: CaseTable, ghost path: Path)
    returns (next: FilterState)
    requires Tracks(ps, st, path, cases)
    ensures fresh(next) && next.decision == None && Collected(ps, st.active, name, next, cases)
  {
    hide Waiting, RefPath, Decision, Goes, Led, Gathered, SomePositive;
    next := new FilterState();
    NothingGathered(ps, name, cases);
    for k := 0 to |st.active|
      invariant fresh(next) && next.decision == None && Collected(ps, st.active[..k], name, next, cases)
      invariant k < |st.active| ==> next.UpTo(st.active[k].pattern)
    {
      var d := st.active[k];
      assert d in st.active && IsWaiting(ps, d, path, cases);
      assert st.active[..k + 1] == st.active[..k] + [d];
      ghost var active, matched, alive := next.active, next.matched, next.positiveAlive;
      Advance(ps, next, d, name, cases);
      GatheredSnoc(ps, st.active[..k], d, name, active, matched, alive,
                   next.active, next.matched, next.positiveAlive, cases);
    }
    assert st.active[..|st.active|] == st.active;
  }

  /** The state of a child, from the state of its directory. */
  method Descend(ps: seq<Pattern>, st: FilterState, name: Name, cases: CaseTable, ghost path: Path)
    returns (next: FilterState)
    requires Tracks(ps, st, path, cases)
    ensures fresh(next) && Tracks(ps, next, path + [name], cases)
  {
    next := Follow(ps, st, name, cases, path);
    CollectedIsTracked(ps, st, next, path, name, cases);
    if next.matched == [] {
      NoDecision(ps, |ps|, path + [name], cases);
    } else {
      var last := MaxOf(next.matched);
      assert PatternHits(ps, last, path + [name], cases);
      DecisionByHighest(ps, |ps|, last, path + [name], cases);
      next.decision := Some(!ps[last].negated);
    }
  }

  // ---------- what the walk means ----------

  /** Walking from the top along any path ends in the state that the reference matcher describes. */
  method WalkTo(ps: seq<Pattern>, path: Path, cases: CaseTable) returns (st: FilterState)
    ensures fresh(st) && Tracks(ps, st, path, cases)
  {
    st := Start(ps, cases);
    for k := 0 to |path|
      invariant fresh(st) && Tracks(ps, st, path[..k], cases)
    {
      assert path[..k + 1] == path[..k] + [path[k]];
      st := Descend(ps, st, path[k], cases, path[..k]);
    }
    assert path[..|path|] == path;
  }

  /** Pruning is safe: below a node where `may_match_below` is false nothing matches. */
  lemma NothingMatchesBelow(ps: seq<Pattern>, st: FilterState, path: Path, more: Path, cases: CaseTable)
    requires Tracks(ps, st, path, cases) && !st.positiveAlive && more != []
    ensures Decision(ps, path + more, cases) != Some(true)
  {
    forall m: nat | PatternHits(ps, m, path + more, cases) ensures ps[m].negated {
      WholePattern(ps[m], path + more, cases);
      MatchBelowIsWaiting(ps[m], path, more, |ps[m].comps|, cases);
      var i: nat :| i < |ps[m].comps| && Waiting(ps[m], i, path, cases);
      assert IsWaiting(ps, At(m, i), path, cases);
    }
    NegatedHitsOnly(ps, |ps|, path + more, cases);
  }

  lemma {:induction false} NegatedHitsOnly(ps: seq<Pattern>, n: nat, path: Path, cases: CaseTable)
    requires n <= |ps| && forall m: nat | PatternHits(ps, m, path, cases) :: ps[m].negated
    ensures DecisionAmong(ps, n, path, cases) != Some(true)
  {
    if n > 0 {
      NegatedHitsOnly(ps, n - 1, path, cases);
    }
  }
}
