/** Matching one path component against one pattern segment (filter.rs). */
module Glob {
  import opened Wrappers

  /** A character of a name, or a byte that is not part of valid UTF-8. */
  datatype Unit = Char(code: nat) | Raw(byte: Byte)

  datatype Token =
    | Exactly(code: nat)
    | AnyChar
    | Star
    | Class(negated: bool, ranges: seq<(nat, nat)>)

  /** The lower- and upper-case forms of a character (Unicode tables). */
  datatype CaseTable = CaseTable(lower: nat -> seq<nat>, upper: nat -> seq<nat>)

  // ---------- characters ----------

  predicate Follows(b: Byte) {
    0x80 <= b <= 0xBF
  }

  /** The second byte a three- or four-byte sequence may have: no overlong forms, no surrogates,
      nothing above U+10FFFF. */
  predicate SecondByte(lead: Byte, b: Byte) {
    if lead == 0xE0 then 0xA0 <= b <= 0xBF
    else if lead == 0xED then 0x80 <= b <= 0x9F
    else if lead == 0xF0 then 0x90 <= b <= 0xBF
    else if lead == 0xF4 then 0x80 <= b <= 0x8F
    else Follows(b)
  }

  /** Six more bits, from a continuation byte. */
  function Push(high: nat, b: int): (c: nat)
    requires 0x80 <= b <= 0xBF
  {
    high * 64 + (b - 0x80)
  }

  /** `unit_at`: the character at `at` and the number of bytes it takes. */
  function UnitAt(name: seq<Byte>, at: nat): (r: (Unit, nat))
    requires at < |name|
    ensures 1 <= r.1 <= |name| - at
  {
    var lead: int := name[at];
    if lead <= 0x7F then (Char(lead), 1)
    else if 0xC2 <= lead <= 0xDF && at + 2 <= |name| && Follows(name[at + 1]) then
      (Char(Push(lead - 0xC0, name[at + 1])), 2)
    else if 0xE0 <= lead <= 0xEF && at + 3 <= |name| && SecondByte(lead, name[at + 1]) && Follows(name[at + 2]) then
      (Char(Push(Push(lead - 0xE0, name[at + 1]), name[at + 2])), 3)
    else if 0xF0 <= lead <= 0xF4 && at + 4 <= |name| && SecondByte(lead, name[at + 1])
            && Follows(name[at + 2]) && Follows(name[at + 3]) then
      (Char(Push(Push(Push(lead - 0xF0, name[at + 1]), name[at + 2]), name[at + 3])), 4)
    else (Raw(lead), 1)
  }

  /** The characters of `name` from `at` on. */
  function UnitsFrom(name: seq<Byte>, at: nat): seq<Unit>
    requires at <= |name|
    decreases |name| - at
  {
    if at == |name| then []
    else
      var (u, len) := UnitAt(name, at);
      [u] + UnitsFrom(name, at + len)
  }

  /** The UTF-8 form of a character. */
  function Encode(c: nat): seq<Byte>
    requires IsScalar(c)
  {
    var c1 := c / 64;
    var c2 := c1 / 64;
    var c3 := c2 / 64;
    if c < 0x80 then [c]
    else if c < 0x800 then [0xC0 + c1, 0x80 + c % 64]
    else if c < 0x10000 then [0xE0 + c2, 0x80 + c1 % 64, 0x80 + c % 64]
    else [0xF0 + c3, 0x80 + c2 % 64, 0x80 + c1 % 64, 0x80 + c % 64]
  }

  predicate IsScalar(c: nat) {
    c < 0xD800 || 0xE000 <= c < 0x110000
  }

  function EncodeAll(cs: seq<nat>): seq<Byte>
    requires forall c | c in cs :: IsScalar(c)
  {
    if cs == [] then [] else Encode(cs[0]) + EncodeAll(cs[1..])
  }

  lemma PushIsExact(c: nat)
    ensures Push(c / 64, 0x80 + c % 64) == c
  {
  }

  lemma EncodeIsRead(c: nat, name: seq<Byte>, at: nat)
    requires IsScalar(c) && at + |Encode(c)| <= |name|
    requires forall i | 0 <= i < |Encode(c)| :: name[at + i] == Encode(c)[i]
    ensures UnitAt(name, at) == (Char(c), |Encode(c)|)
  {
    var c1 := c / 64;
    var c2 := c1 / 64;
    assert name[at] == Encode(c)[0];
    if 0x80 <= c < 0x800 {
      assert name[at + 1] == Encode(c)[1];
      assert 2 <= c1 < 32;
    } else if 0x800 <= c < 0x10000 {
      assert name[at + 1] == Encode(c)[1] && name[at + 2] == Encode(c)[2];
      assert c2 < 16 && c1 == c2 * 64 + c1 % 64;
      PushIsExact(c1);
    } else if 0x10000 <= c {
      assert name[at + 1] == Encode(c)[1] && name[at + 2] == Encode(c)[2] && name[at + 3] == Encode(c)[3];
      var c3 := c2 / 64;
      assert c3 < 5 && c2 == c3 * 64 + c2 % 64;
      PushIsExact(c2);
      PushIsExact(c1);
    }
  }

  lemma EncodeIsReadFirst(c: nat, before: seq<Byte>, after: seq<Byte>)
    requires IsScalar(c)
    ensures UnitAt(before + Encode(c) + after, |before|) == (Char(c), |Encode(c)|)
  {
    EncodeIsRead(c, before + Encode(c) + after, |before|);
  }

  /** Reading valid UTF-8 gives back the characters it was written from. */
  lemma {:induction false} UnitsOfText(cs: seq<nat>, before: seq<Byte>)
    requires forall c | c in cs :: IsScalar(c)
    ensures UnitsFrom(before + EncodeAll(cs), |before|) == Chars(cs)
    decreases |cs|
  {
    hide Encode, UnitAt, IsScalar;
    if cs == [] {
      assert before + EncodeAll(cs) == before;
    } else {
      var first, rest := Encode(cs[0]), EncodeAll(cs[1..]);
      assert before + EncodeAll(cs) == before + first + rest;
      EncodeIsReadFirst(cs[0], before, rest);
      UnitsOfText(cs[1..], before + first);
    }
  }

  function Chars(cs: seq<nat>): seq<Unit> {
    if cs == [] then [] else [Char(cs[0])] + Chars(cs[1..])
  }

  // ---------- tokens ----------

  predicate InRanges(ranges: seq<(nat, nat)>, c: nat) {
    exists i :: 0 <= i < |ranges| && ranges[i].0 <= c <= ranges[i].1
  }

  predicate AnyInRanges(ranges: seq<(nat, nat)>, cs: seq<nat>) {
    exists c :: c in cs && InRanges(ranges, c)
  }

  /** A token other than `*` against one character. */
  predicate Matches(t: Token, u: Unit, fold: bool, cases: CaseTable) {
    match (t, u)
    case (AnyChar, _) => true
    case (Exactly(c), Char(x)) => c == x || (fold && cases.lower(c) == cases.lower(x))
    case (Class(negated, ranges), Char(x)) =>
      (InRanges(ranges, x)
       || (fold && (AnyInRanges(ranges, cases.lower(x)) || AnyInRanges(ranges, cases.upper(x))))) != negated
    case (Class(negated, _), Raw(_)) => negated
    case (Exactly(_), Raw(_)) => false
    case (Star, _) => false
  }

  /** The exhaustive matcher: `*` takes any number of characters. */
  predicate RefGlob(ts: seq<Token>, us: seq<Unit>, fold: bool, cases: CaseTable)
    decreases |ts|
  {
    if ts == [] then us == []
    else if ts[0] == Star then exists k :: 0 <= k <= |us| && RefGlob(ts[1..], us[k..], fold, cases)
    else us != [] && Matches(ts[0], us[0], fold, cases) && RefGlob(ts[1..], us[1..], fold, cases)
  }

  ghost predicate Listed(ranges: seq<(nat, nat)>, c: nat) {
    exists r :: r in ranges && r.0 <= c <= r.1
  }

  /** The character itself or, folding, one of its upper- or lower-case forms. */
  ghost predicate FormOf(x: nat, u: Unit, fold: bool, cases: CaseTable) {
    u.Char? && (x == u.code || (fold && (x in cases.lower(u.code) || x in cases.upper(u.code))))
  }

  /** A list of ranges takes exactly the characters of which some form is listed; a negated one takes exactly what the
      list does not, and so every stray byte. */
  lemma ClassTakes(ranges: seq<(nat, nat)>, u: Unit, fold: bool, cases: CaseTable)
    ensures Matches(Class(false, ranges), u, fold, cases) <==> exists x: nat :: FormOf(x, u, fold, cases) && Listed(ranges, x)
    ensures Matches(Class(true, ranges), u, fold, cases) <==> !Matches(Class(false, ranges), u, fold, cases)
  {
    forall x: nat ensures InRanges(ranges, x) <==> Listed(ranges, x) {
      if Listed(ranges, x) {
        var r :| r in ranges && r.0 <= x <= r.1;
        var i :| 0 <= i < |ranges| && ranges[i] == r;
      }
    }
  }

  /** A name of one character against a class, bytes and all. */
  lemma ClassAgainstName(ranges: seq<(nat, nat)>, negated: bool, c: nat, cases: CaseTable)
    requires IsScalar(c)
    ensures RefGlob([Class(negated, ranges)], UnitsFrom(Encode(c), 0), false, cases) <==>
              (if negated then !Listed(ranges, c) else Listed(ranges, c))
  {
    UnitsOfText([c], []);
    assert [] + EncodeAll([c]) == Encode(c);
    assert Chars([c]) == [Char(c)];
    ClassTakes(ranges, Char(c), false, cases);
    assert FormOf(c, Char(c), false, cases);
    var us, ts := UnitsFrom(Encode(c), 0), [Class(negated, ranges)];
    assert us == [Char(c)] && ts[1..] == [] && us[1..] == [];
  }

  /** The tokens of a pattern without special characters. */
  function Literals(cs: seq<nat>): (ts: seq<Token>)
    ensures |ts| == |cs| && forall i | 0 <= i < |cs| :: ts[i] == Exactly(cs[i])
  {
    if cs == [] then [] else [Exactly(cs[0])] + Literals(cs[1..])
  }

  /** The same characters one by one or, folding, the same lower-case forms. */
  ghost predicate SpelledAlike(cs: seq<nat>, ds: seq<nat>, fold: bool, cases: CaseTable) {
    && |cs| == |ds|
    && forall i | 0 <= i < |cs| :: cs[i] == ds[i] || (fold && cases.lower(cs[i]) == cases.lower(ds[i]))
  }

  lemma {:induction false} LiteralsAgainstChars(cs: seq<nat>, ds: seq<nat>, fold: bool, cases: CaseTable)
    ensures RefGlob(Literals(cs), Chars(ds), fold, cases) <==> SpelledAlike(cs, ds, fold, cases)
    decreases |cs|
  {
    if cs != [] && ds != [] {
      LiteralsAgainstChars(cs[1..], ds[1..], fold, cases);
      assert Literals(cs)[1..] == Literals(cs[1..]) && Chars(ds)[1..] == Chars(ds[1..]);
      if SpelledAlike(cs[1..], ds[1..], fold, cases) && (cs[0] == ds[0] || (fold && cases.lower(cs[0]) == cases.lower(ds[0]))) {
        forall i | 0 <= i < |cs| ensures cs[i] == ds[i] || (fold && cases.lower(cs[i]) == cases.lower(ds[i])) {
          if i > 0 {
            assert cs[1..][i - 1] == cs[i] && ds[1..][i - 1] == ds[i];
          }
        }
      }
    }
  }

  /** A pattern without special characters matches exactly the names it spells. */
  lemma LiteralsMatchTheirName(cs: seq<nat>, ds: seq<nat>, fold: bool, cases: CaseTable)
    requires forall d | d in ds :: IsScalar(d)
    ensures RefGlob(Literals(cs), UnitsFrom(EncodeAll(ds), 0), fold, cases) <==> SpelledAlike(cs, ds, fold, cases)
  {
    UnitsOfText(ds, []);
    assert [] + EncodeAll(ds) == EncodeAll(ds);
    LiteralsAgainstChars(cs, ds, fold, cases);
  }

  /** `?` takes one character, or one stray byte; no literal takes a stray byte. */
  lemma OneOfAny(us: seq<Unit>, c: nat, b: Byte, fold: bool, cases: CaseTable)
    ensures RefGlob([AnyChar], us, fold, cases) <==> |us| == 1
    ensures !RefGlob([Exactly(c)], [Raw(b)], fold, cases)
  {
    assert [AnyChar][1..] == [] && [Exactly(c)][1..] == [];
    if us != [] {
      assert us[1..] == [] <==> |us| == 1;
    }
  }

  // ---------- remembering the last star only ----------

  /** The first `n` tokens take exactly the first `n` characters, one each. */
  predicate Aligned(ts: seq<Token>, us: seq<Unit>, n: nat, fold: bool, cases: CaseTable) {
    n <= |ts| && n <= |us| && forall i | 0 <= i < n :: ts[i] != Star && Matches(ts[i], us[i], fold, cases)
  }

  /** Tokens that are not stars leave no choice. */
  lemma {:induction false} SkipAligned(ts: seq<Token>, us: seq<Unit>, n: nat, fold: bool, cases: CaseTable)
    requires Aligned(ts, us, n, fold, cases)
    ensures RefGlob(ts, us, fold, cases) == RefGlob(ts[n..], us[n..], fold, cases)
    decreases n
  {
    if n == 0 {
      assert ts[0..] == ts && us[0..] == us;
    } else {
      assert Aligned(ts[1..], us[1..], n - 1, fold, cases);
      SkipAligned(ts[1..], us[1..], n - 1, fold, cases);
      assert ts[1..][n - 1..] == ts[n..] && us[1..][n - 1..] == us[n..];
    }
  }

  /** A match consumes the tokens before a star one character each. */
  lemma {:induction false} MatchIsAligned(ts: seq<Token>, us: seq<Unit>, n: nat, fold: bool, cases: CaseTable)
    requires n <= |ts| && forall i | 0 <= i < n :: ts[i] != Star
    requires RefGlob(ts, us, fold, cases)
    ensures Aligned(ts, us, n, fold, cases)
    decreases n
  {
    if n > 0 {
      MatchIsAligned(ts[1..], us[1..], n - 1, fold, cases);
      forall i | 0 <= i < n ensures i < |us| && Matches(ts[i], us[i], fold, cases) {
        if i > 0 { assert ts[1..][i - 1] == ts[i] && us[1..][i - 1] == us[i]; }
      }
    }
  }

  /** Some way to give the star at least `from` characters completes the match. */
  predicate StarFrom(rest: seq<Token>, us: seq<Unit>, from: nat, fold: bool, cases: CaseTable)
    decreases |us| - from
  {
    from <= |us| && (RefGlob(rest, us[from..], fold, cases) || StarFrom(rest, us, from + 1, fold, cases))
  }

  lemma {:induction false} StarFromAny(rest: seq<Token>, us: seq<Unit>, from: nat, fold: bool, cases: CaseTable)
    ensures StarFrom(rest, us, from, fold, cases) <==>
            exists k :: from <= k <= |us| && RefGlob(rest, us[k..], fold, cases)
    decreases |us| - from
  {
    if from <= |us| {
      StarFromAny(rest, us, from + 1, fold, cases);
    }
  }

  /** A later choice of the earlier star is also a choice of the next one. */
  lemma ChoiceCarriesOver(rest: seq<Token>, us: seq<Unit>, k: nat, n: nat, fold: bool, cases: CaseTable)
    requires n < |rest| && rest[n] == Star && k <= |us| && RefGlob(rest, us[k..], fold, cases)
    requires forall i | 0 <= i < n :: rest[i] != Star
    ensures StarFrom(rest[n + 1..], us, k + n, fold, cases)
  {
    hide Matches, Aligned, StarFrom;
    var tail := rest[n + 1..];
    MatchIsAligned(rest, us[k..], n, fold, cases);
    SkipAligned(rest, us[k..], n, fold, cases);
    assert us[k..][n..] == us[k + n..];
    assert rest[n..][0] == Star && rest[n..][1..] == tail;
    var j :| 0 <= j <= |us[k + n..]| && RefGlob(tail, us[k + n..][j..], fold, cases);
    assert us[k + n..][j..] == us[k + n + j..];
    StarFromAny(tail, us, k + n, fold, cases);
  }

  lemma StarFromEarlier(rest: seq<Token>, us: seq<Unit>, from: nat, later: nat, fold: bool, cases: CaseTable)
    requires from <= later && StarFrom(rest, us, later, fold, cases)
    ensures StarFrom(rest, us, from, fold, cases)
  {
    StarFromAny(rest, us, later, fold, cases);
    StarFromAny(rest, us, from, fold, cases);
  }

  /** Reaching the next star makes the choices of the previous one irrelevant. */
  lemma LaterStarSuffices(rest: seq<Token>, us: seq<Unit>, from: nat, n: nat, fold: bool, cases: CaseTable)
    requires n < |rest| && rest[n] == Star && from <= |us| && Aligned(rest, us[from..], n, fold, cases)
    ensures StarFrom(rest, us, from, fold, cases) == StarFrom(rest[n + 1..], us, from + n, fold, cases)
  {
    var tail := rest[n + 1..];
    if StarFrom(rest, us, from, fold, cases) {
      StarFromAny(rest, us, from, fold, cases);
      var k :| from <= k <= |us| && RefGlob(rest, us[k..], fold, cases);
      ChoiceCarriesOver(rest, us, k, n, fold, cases);
      StarFromEarlier(tail, us, from + n, k + n, fold, cases);
    }
    if StarFrom(tail, us, from + n, fold, cases) {
      ChoiceComesBack(rest, us, from, n, fold, cases);
    }
  }

  lemma ChoiceComesBack(rest: seq<Token>, us: seq<Unit>, from: nat, n: nat, fold: bool, cases: CaseTable)
    requires n < |rest| && rest[n] == Star && from <= |us| && Aligned(rest, us[from..], n, fold, cases)
    requires StarFrom(rest[n + 1..], us, from + n, fold, cases)
    ensures RefGlob(rest, us[from..], fold, cases)
  {
    StarFromAny(rest[n + 1..], us, from + n, fold, cases);
    var k :| from + n <= k <= |us| && RefGlob(rest[n + 1..], us[k..], fold, cases);
    SkipAligned(rest, us[from..], n, fold, cases);
    assert us[from..][n..][k - from - n..] == us[k..];
    assert rest[n..][0] == Star && rest[n..][1..] == rest[n + 1..];
  }

  /** The current attempt fails at a character its next token does not take. */
  lemma AttemptFails(ts: seq<Token>, us: seq<Unit>, n: nat, fold: bool, cases: CaseTable)
    requires Aligned(ts, us, n, fold, cases) && n < |us|
    requires n < |ts| ==> ts[n] != Star && !Matches(ts[n], us[n], fold, cases)
    ensures !RefGlob(ts, us, fold, cases)
  {
    SkipAligned(ts, us, n, fold, cases);
    assert us[n..][0] == us[n];
    assert n < |ts| ==> ts[n..][0] == ts[n];
  }

  predicate AllStars(ts: seq<Token>) {
    forall i | 0 <= i < |ts| :: ts[i] == Star
  }

  lemma {:induction false} OnlyStarsTakeNothing(ts: seq<Token>, fold: bool, cases: CaseTable)
    ensures RefGlob(ts, [], fold, cases) == AllStars(ts)
    decreases |ts|
  {
    if ts != [] {
      OnlyStarsTakeNothing(ts[1..], fold, cases);
      assert ts == [ts[0]] + ts[1..];
      var none: seq<Unit> := [];
      assert none[0..] == none;
      assert AllStars(ts) <==> ts[0] == Star && AllStars(ts[1..]);
    }
  }

  /** At the end of the name only the current attempt can still succeed. */
  lemma AttemptEnds(ts: seq<Token>, us: seq<Unit>, from: nat, n: nat, fold: bool, cases: CaseTable)
    requires from + n == |us| && Aligned(ts, us[from..], n, fold, cases)
    ensures StarFrom(ts, us, from, fold, cases) == AllStars(ts[n..])
    ensures RefGlob(ts, us[from..], fold, cases) == AllStars(ts[n..])
  {
    StarFromAny(ts, us, from, fold, cases);
    SkipAligned(ts, us[from..], n, fold, cases);
    assert us[from..][n..] == [];
    OnlyStarsTakeNothing(ts[n..], fold, cases);
    forall k | from <= k <= |us| && RefGlob(ts, us[k..], fold, cases) ensures k == from {
      MatchIsAligned(ts, us[k..], n, fold, cases);
    }
  }

  /** A star ends the current attempt: from here on only its own choices matter. */
  lemma StarReached(ts: seq<Token>, us: seq<Unit>, t: nat, seen: bool, after: nat, sk: nat,
                    fold: bool, cases: CaseTable)
    requires t < |ts| && ts[t] == Star && after <= t && sk <= |us|
    requires !seen ==> after == 0 && sk == 0
    requires Aligned(ts[after..], us[sk..], t - after, fold, cases)
    requires seen ==> RefGlob(ts, us, fold, cases) == StarFrom(ts[after..], us, sk, fold, cases)
    ensures RefGlob(ts, us, fold, cases) == StarFrom(ts[t + 1..], us, sk + (t - after), fold, cases)
  {
    assert ts[after..][t - after + 1..] == ts[t + 1..];
    if seen {
      LaterStarSuffices(ts[after..], us, sk, t - after, fold, cases);
    } else {
      assert ts[0..] == ts && us[0..] == us;
      SkipAligned(ts, us, t, fold, cases);
      StarFromAny(ts[t + 1..], us, t, fold, cases);
      var rest := us[t..];
      assert ts[t..][0] == Star && ts[t..][1..] == ts[t + 1..];
      assert forall j | 0 <= j <= |rest| :: rest[j..] == us[t + j..];
      if StarFrom(ts[t + 1..], us, t, fold, cases) {
        var k :| t <= k <= |us| && RefGlob(ts[t + 1..], us[k..], fold, cases);
        assert rest[k - t..] == us[k..];
      }
    }
  }

  /** Where to go back to: the token after the last `*`, and the byte the `*` reaches so far. */
  datatype Back = NoStar | Back(after: nat, starAt: nat)

  /** Where the scan stands: token `t`, character `k` at byte `at`; the star has taken `sk` characters. */
  datatype Scan = Scan(t: nat, at: nat, star: Back, k: nat, sk: nat)

  /** The standings a scan can have. Without a star the tokens so far are aligned; with one, the whole
      match (`goal`) succeeds exactly when some choice for the star of at least `sk` characters does,
      and the current attempt is the choice `sk`. */
  ghost function Standings(ts: seq<Token>, name: seq<Byte>, us: seq<Unit>, goal: bool,
                           fold: bool, cases: CaseTable): iset<Scan> {
    iset s: Scan | Scanning(ts, name, us, goal, s, fold, cases)
  }

  ghost predicate Scanning(ts: seq<Token>, name: seq<Byte>, us: seq<Unit>, goal: bool, s: Scan,
                           fold: bool, cases: CaseTable) {
    var after := if s.star.Back? then s.star.after else 0;
    && after <= s.t <= |ts| && s.at <= |name| && s.sk <= s.k <= |us| && s.k == s.sk + (s.t - after)
    && us[s.k..] == UnitsFrom(name, s.at)
    && Aligned(ts[after..], us[s.sk..], s.t - after, fold, cases)
    && match s.star {
      case NoStar => s.sk == 0
      case Back(_, starAt) =>
        && starAt <= |name| && us[s.sk..] == UnitsFrom(name, starAt)
        && goal == StarFrom(ts[after..], us, s.sk, fold, cases)
    }
  }

  lemma NotAtEnd(name: seq<Byte>, at: nat)
    requires at <= |name| && UnitsFrom(name, at) != []
    ensures at < |name|
  {
  }

  lemma NextUnit(name: seq<Byte>, us: seq<Unit>, at: nat, k: nat)
    requires at < |name| && k <= |us| && us[k..] == UnitsFrom(name, at)
    ensures var (u, len) := UnitAt(name, at);
            k < |us| && us[k] == u && us[k + 1..] == UnitsFrom(name, at + len)
  {
    hide UnitAt, Matches;
    var (u, len) := UnitAt(name, at);
    assert us[k..] == [u] + UnitsFrom(name, at + len);
    assert us[k..][0] == us[k] && us[k..][1..] == us[k + 1..];
  }

  lemma ScanStarts(ts: seq<Token>, name: seq<Byte>, us: seq<Unit>, goal: bool, fold: bool, cases: CaseTable)
    requires us == UnitsFrom(name, 0)
    ensures Scan(0, 0, NoStar, 0, 0) in Standings(ts, name, us, goal, fold, cases)
  {
  }

  lemma Bounds(ts: seq<Token>, name: seq<Byte>, us: seq<Unit>, goal: bool, s: Scan, fold: bool, cases: CaseTable)
    requires s in Standings(ts, name, us, goal, fold, cases)
    ensures s.t <= |ts| && s.at <= |name| && s.sk <= |us|
  {
  }

  lemma ScanStar(ts: seq<Token>, name: seq<Byte>, us: seq<Unit>, goal: bool, s: Scan, fold: bool, cases: CaseTable)
    requires goal == RefGlob(ts, us, fold, cases)
    requires s in Standings(ts, name, us, goal, fold, cases) && s.t < |ts| && ts[s.t] == Star
    ensures Scan(s.t + 1, s.at, Back(s.t + 1, s.at), s.k, s.k) in Standings(ts, name, us, goal, fold, cases)
    ensures s.sk <= s.k <= |us|
  {
    hide UnitAt, Matches, UnitsFrom, StarFrom, RefGlob;
    StarReached(ts, us, s.t, s.star.Back?, if s.star.Back? then s.star.after else 0, s.sk, fold, cases);
  }

  lemma AlignedSnoc(ts: seq<Token>, us: seq<Unit>, after: nat, t: nat, sk: nat, k: nat, fold: bool, cases: CaseTable)
    requires after <= t < |ts| && sk <= k < |us| && k == sk + (t - after)
    requires Aligned(ts[after..], us[sk..], t - after, fold, cases)
    requires ts[t] != Star && Matches(ts[t], us[k], fold, cases)
    ensures Aligned(ts[after..], us[sk..], t + 1 - after, fold, cases)
  {
    hide Matches;
    assert ts[after..][t - after] == ts[t] && us[sk..][k - sk] == us[k];
  }

  lemma ScanToken(ts: seq<Token>, name: seq<Byte>, us: seq<Unit>, goal: bool, s: Scan, fold: bool, cases: CaseTable)
    requires s in Standings(ts, name, us, goal, fold, cases) && s.at < |name| && s.t < |ts|
    requires ts[s.t] != Star && Matches(ts[s.t], UnitAt(name, s.at).0, fold, cases)
    ensures Scan(s.t + 1, s.at + UnitAt(name, s.at).1, s.star, s.k + 1, s.sk)
            in Standings(ts, name, us, goal, fold, cases)
  {
    hide UnitAt, Matches, UnitsFrom, StarFrom, RefGlob, Aligned;
    var after := if s.star.Back? then s.star.after else 0;
    NextUnit(name, us, s.at, s.k);
    AlignedSnoc(ts, us, after, s.t, s.sk, s.k, fold, cases);
  }

  /** The attempt fails at a character that its next token does not take. */
  lemma AttemptFailsHere(ts: seq<Token>, us: seq<Unit>, after: nat, t: nat, sk: nat, k: nat, fold: bool, cases: CaseTable)
    requires after <= t <= |ts| && sk <= k < |us| && k == sk + (t - after)
    requires Aligned(ts[after..], us[sk..], t - after, fold, cases)
    requires t < |ts| ==> ts[t] != Star && !Matches(ts[t], us[k], fold, cases)
    ensures !RefGlob(ts[after..], us[sk..], fold, cases)
  {
    hide UnitAt, Matches;
    assert us[sk..][t - after] == us[k];
    assert t < |ts| ==> ts[after..][t - after] == ts[t];
    AttemptFails(ts[after..], us[sk..], t - after, fold, cases);
  }

  /** The attempt fails here. Without a star the match fails; with one, the star takes one more. */
  lemma ScanFails(ts: seq<Token>, name: seq<Byte>, us: seq<Unit>, goal: bool, s: Scan, fold: bool, cases: CaseTable)
    requires goal == RefGlob(ts, us, fold, cases)
    requires s in Standings(ts, name, us, goal, fold, cases) && s.at < |name|
    requires s.t < |ts| ==> ts[s.t] != Star && !Matches(ts[s.t], UnitAt(name, s.at).0, fold, cases)
    ensures s.star.NoStar? ==> !goal
    ensures s.star.Back? ==> s.star.after <= |ts| && s.star.starAt < |name| && s.sk < |us|
    ensures s.star.Back? ==> us[s.sk..] == UnitsFrom(name, s.star.starAt)
    ensures s.star.Back? ==> goal == StarFrom(ts[s.star.after..], us, s.sk + 1, fold, cases)
  {
    hide UnitAt, Matches, RefGlob, Aligned, UnitsFrom;
    NextUnit(name, us, s.at, s.k);
    if s.star.NoStar? {
      AttemptFailsHere(ts, us, 0, s.t, 0, s.k, fold, cases);
      assert ts[0..] == ts && us[0..] == us;
    } else {
      AttemptFailsHere(ts, us, s.star.after, s.t, s.sk, s.k, fold, cases);
      NotAtEnd(name, s.star.starAt);
    }
  }

  /** The standing after the star has taken one more character. */
  lemma ScanBack(ts: seq<Token>, name: seq<Byte>, us: seq<Unit>, goal: bool, star: Back, sk: nat,
                 fold: bool, cases: CaseTable)
    requires star.Back? && star.after <= |ts| && star.starAt < |name| && sk < |us|
    requires us[sk..] == UnitsFrom(name, star.starAt)
    requires goal == StarFrom(ts[star.after..], us, sk + 1, fold, cases)
    ensures var back := star.starAt + UnitAt(name, star.starAt).1;
            Scan(star.after, back, Back(star.after, back), sk + 1, sk + 1)
            in Standings(ts, name, us, goal, fold, cases)
  {
    hide UnitAt, Matches;
    NextUnit(name, us, star.starAt, sk);
  }

  lemma ScanEnds(ts: seq<Token>, name: seq<Byte>, us: seq<Unit>, goal: bool, s: Scan, fold: bool, cases: CaseTable)
    requires goal == RefGlob(ts, us, fold, cases) && s.at == |name|
    requires s in Standings(ts, name, us, goal, fold, cases)
    ensures s.t <= |ts| && goal == AllStars(ts[s.t..])
  {
    var after := if s.star.Back? then s.star.after else 0;
    assert us[s.k..] == [];
    assert ts[after..][s.t - after..] == ts[s.t..];
    assert ts[0..] == ts && us[0..] == us;
    AttemptEnds(ts[after..], us, s.sk, s.t - after, fold, cases);
  }

  /** `glob_match`: goes back to the last `*` only. It accepts exactly what the exhaustive matcher
      accepts, for every token list and every byte string. */
  method GlobMatch(ts: seq<Token>, name: seq<Byte>, fold: bool, cases: CaseTable) returns (ok: bool)
    ensures ok == RefGlob(ts, UnitsFrom(name, 0), fold, cases)
  {
    hide *;
    var t: nat, at: nat := 0, 0;
    var star := NoStar;
    ghost var k: nat, sk: nat := 0, 0;
    ghost var us := UnitsFrom(name, 0);
    ghost var goal := RefGlob(ts, us, fold, cases);
    ghost var standings := Standings(ts, name, us, goal, fold, cases);
    ScanStarts(ts, name, us, goal, fold, cases);
    while at < |name|
      invariant t <= |ts| && at <= |name| && sk <= |us|
      invariant Scan(t, at, star, k, sk) in standings
      decreases if star.NoStar? then |us| + 1 else |us| - sk, |ts| - t
    {
      ghost var s := Scan(t, at, star, k, sk);
      var (unit, len) := UnitAt(name, at);
      if t < |ts| && ts[t] == Star {
        ScanStar(ts, name, us, goal, s, fold, cases);
        star, sk, t := Back(t + 1, at), k, t + 1;
      } else if t < |ts| && Matches(ts[t], unit, fold, cases) {
        ScanToken(ts, name, us, goal, s, fold, cases);
        t, at, k := t + 1, at + len, k + 1;
      } else {
        ScanFails(ts, name, us, goal, s, fold, cases);
        if star.NoStar? {
          return false;
        }
        ScanBack(ts, name, us, goal, star, sk, fold, cases);
        var back := star.starAt + UnitAt(name, star.starAt).1;
        star, t, at, k, sk := Back(star.after, back), star.after, back, sk + 1, sk + 1;
      }
      Bounds(ts, name, us, goal, Scan(t, at, star, k, sk), fold, cases);
    }
    ScanEnds(ts, name, us, goal, Scan(t, at, star, k, sk), fold, cases);
    ok := AllStars(ts[t..]);
  }
}
