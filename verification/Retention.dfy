/** Which snapshots a retention policy keeps (forget.rs). */
module Retention {
  import opened Wrappers

  /** Nanoseconds since 1970-01-01 UTC. */
  type Time = int

  /** Snapshot keys, in the order of their bytes. */
  type Key = nat

  datatype Candidate = Candidate(key: Key, time: Time)

  datatype Reason = Last | Within | Hourly | Daily | Weekly | Monthly | Yearly

  datatype Policy = Policy(
    keepLast: Option<nat>,
    keepHourly: Option<nat>,
    keepDaily: Option<nat>,
    keepWeekly: Option<nat>,
    keepMonthly: Option<nat>,
    keepYearly: Option<nat>,
    keepWithin: Option<nat>)
  {
    predicate IsEmpty() {
      this == Policy(None, None, None, None, None, None, None)
    }

    /** `validate`: no rule may be zero. */
    predicate Valid() {
      && keepLast != Some(0) && keepHourly != Some(0) && keepDaily != Some(0) && keepWeekly != Some(0)
      && keepMonthly != Some(0) && keepYearly != Some(0) && keepWithin != Some(0)
    }
  }

  // ---------- the calendar ----------

  const HOUR_NS: int := 3_600_000_000_000

  function HourOf(t: Time): int {
    t / HOUR_NS
  }

  function DayOf(t: Time): int {
    t / (24 * HOUR_NS)
  }

  /** Weeks start on Monday; 1970-01-01 was a Thursday. */
  function WeekOf(t: Time): int {
    (DayOf(t) + 3) / 7
  }

  /** Months and years have no formula this short: any numbering that grows with time will do. */
  datatype Calendar = Calendar(month: Time -> int, year: Time -> int) {
    ghost predicate Valid() {
      Monotone(month) && Monotone(year)
    }
  }

  ghost predicate Monotone(f: Time -> int) {
    forall s, t | s <= t :: f(s) <= f(t)
  }

  lemma HoursDaysAndWeeksGrow()
    ensures Monotone(HourOf) && Monotone(DayOf) && Monotone(WeekOf)
  {
  }

  // ---------- newest first ----------

  predicate Newer(a: Candidate, b: Candidate) {
    a.time > b.time || (a.time == b.time && a.key > b.key)
  }

  ghost predicate NewestFirst(cs: seq<Candidate>) {
    forall i, j | 0 <= i < j < |cs| :: Newer(cs[i], cs[j])
  }

  ghost predicate DistinctKeys(cs: seq<Candidate>) {
    forall i, j | 0 <= i < j < |cs| :: cs[i].key != cs[j].key
  }

  ghost function Members(cs: seq<Candidate>): set<Candidate> {
    set c | c in cs
  }

  function Insert(c: Candidate, cs: seq<Candidate>): (out: seq<Candidate>)
    requires NewestFirst(cs) && forall d | d in cs :: d.key != c.key
    ensures NewestFirst(out) && Members(out) == Members(cs) + {c} && |out| == |cs| + 1
  {
    if cs == [] || Newer(c, cs[0]) then [c] + cs
    else
      assert Newer(cs[0], c);
      assert cs[0] in cs && cs == [cs[0]] + cs[1..];
      var rest := Insert(c, cs[1..]);
      assert forall x | x in Members(cs[1..]) + {c} :: Newer(cs[0], x);
      assert forall j | 0 <= j < |rest| :: rest[j] in Members(rest);
      [cs[0]] + rest
  }

  /** `sort_by` */
  function Sort(cs: seq<Candidate>): (out: seq<Candidate>)
    requires DistinctKeys(cs)
    ensures NewestFirst(out) && Members(out) == Members(cs) && |out| == |cs|
  {
    if cs == [] then []
    else
      FirstIsNew(cs, Sort(cs[1..]));
      Insert(cs[0], Sort(cs[1..]))
  }

  lemma FirstIsNew(cs: seq<Candidate>, rest: seq<Candidate>)
    requires cs != [] && DistinctKeys(cs) && Members(rest) == Members(cs[1..])
    ensures forall d | d in rest :: d.key != cs[0].key
    ensures Members(cs) == Members(cs[1..]) + {cs[0]}
  {
    assert cs == [cs[0]] + cs[1..];
    forall d | d in rest ensures d.key != cs[0].key {
      assert d in Members(rest);
      var i :| 0 <= i < |cs[1..]| && cs[1..][i] == d;
      assert cs[i + 1] == d;
    }
  }

  lemma NoMembers(cs: seq<Candidate>)
    ensures Members(cs) == {} <==> cs == []
  {
    assert cs != [] ==> cs[0] in Members(cs);
  }

  lemma WithoutFirst(cs: seq<Candidate>)
    requires NewestFirst(cs) && cs != []
    ensures Members(cs[1..]) == Members(cs) - {cs[0]} && forall x | x in Members(cs) && x != cs[0] :: Newer(cs[0], x)
  {
    forall x | x in cs[1..] ensures Newer(cs[0], x) {
      var j :| 0 <= j < |cs[1..]| && cs[1..][j] == x;
      assert Newer(cs[0], cs[j + 1]);
    }
    assert cs == [cs[0]] + cs[1..];
  }

  /** The order does not depend on the order of the input. */
  lemma {:induction false} NewestFirstIsUnique(a: seq<Candidate>, b: seq<Candidate>)
    requires NewestFirst(a) && NewestFirst(b) && Members(a) == Members(b)
    ensures a == b
    decreases |a|
  {
    NoMembers(a);
    NoMembers(b);
    if a != [] {
      assert a[0] in Members(b) && b[0] in Members(a);
      WithoutFirst(a);
      WithoutFirst(b);
      NewestFirstIsUnique(a[1..], b[1..]);
      assert a == [a[0]] + a[1..] && b == [b[0]] + b[1..];
    }
  }

  // ---------- what a policy promises ----------

  /** The candidates newer than `c`. */
  ghost function Ahead(cs: set<Candidate>, c: Candidate): set<Candidate> {
    set d | d in cs && Newer(d, c)
  }

  ghost function BucketsAfter(cs: set<Candidate>, f: Time -> int, k: int): set<int> {
    set d | d in cs && f(d.time) > k :: f(d.time)
  }

  /** `c` is the newest of its bucket, and its bucket is among the latest `n`. */
  ghost predicate KeptByBucket(cs: set<Candidate>, f: Time -> int, n: nat, c: Candidate) {
    && (forall d | d in cs && f(d.time) == f(c.time) && d != c :: Newer(c, d))
    && |BucketsAfter(cs, f, f(c.time))| < n
  }

  /** `c` is among the newest `n`. */
  ghost predicate KeptByLast(cs: set<Candidate>, n: nat, c: Candidate) {
    |Ahead(cs, c)| < n
  }

  /** `c` is no older than `within` before the newest of the group. */
  ghost predicate KeptByWithin(cs: set<Candidate>, within: nat, c: Candidate) {
    forall d | d in cs :: d.time - within <= c.time
  }

  datatype Rule = Rule(reason: Reason, count: nat, bucketOf: Time -> int)

  function RuleOf(reason: Reason, count: Option<nat>, f: Time -> int): seq<Rule> {
    match count
    case None => []
    case Some(n) => [Rule(reason, n, f)]
  }

  /** The bucket rules of a policy, in the order their reasons are given. */
  function Rules(p: Policy, cal: Calendar): seq<Rule> {
    RuleOf(Hourly, p.keepHourly, HourOf) + RuleOf(Daily, p.keepDaily, DayOf) + RuleOf(Weekly, p.keepWeekly, WeekOf)
    + RuleOf(Monthly, p.keepMonthly, cal.month) + RuleOf(Yearly, p.keepYearly, cal.year)
  }

  ghost function RuleReasons(cs: set<Candidate>, rules: seq<Rule>, c: Candidate): seq<Reason> {
    if rules == [] then []
    else
      var last := rules[|rules| - 1];
      RuleReasons(cs, rules[..|rules| - 1], c)
      + if KeptByBucket(cs, last.bucketOf, last.count, c) then [last.reason] else []
  }

  /** Every reason the policy has to keep `c`. */
  ghost function Reasons(cs: set<Candidate>, p: Policy, cal: Calendar, c: Candidate): seq<Reason> {
    (if p.keepLast.Some? && KeptByLast(cs, p.keepLast.value, c) then [Last] else [])
    + (if p.keepWithin.Some? && KeptByWithin(cs, p.keepWithin.value, c) then [Within] else [])
    + RuleReasons(cs, Rules(p, cal), c)
  }

  // ---------- the rules without the calendar functions ----------

  const DAY_NS: int := 86_400_000_000_000

  /** A Monday: 1970-01-05. */
  const MONDAY_NS: int := 345_600_000_000_000

  /** The times lie in the same of the spans of this length that follow one another from `from` on. */
  ghost predicate SameSpan(s: Time, t: Time, length: int, from: int) {
    exists k: int :: k * length + from <= s < k * length + length + from && k * length + from <= t < k * length + length + from
  }

  /** No two of them lie in the same span. */
  ghost predicate Apart(cs: set<Candidate>, length: int, from: int) {
    forall c, d | c in cs && d in cs && c != d :: !SameSpan(c.time, d.time, length, from)
  }

  /** `c` is the newest of its span, and there are no `n` candidates in as many later spans. */
  ghost predicate KeptBySpan(cs: set<Candidate>, length: int, from: int, n: nat, c: Candidate) {
    && (forall d | d in cs && d != c && SameSpan(c.time, d.time, length, from) :: Newer(c, d))
    && !exists later: set<Candidate> ::
         && later <= cs && |later| == n && Apart(later, length, from)
         && forall d | d in later :: d.time > c.time && !SameSpan(c.time, d.time, length, from)
  }

  /** `f` numbers the spans. */
  ghost predicate Numbers(f: Time -> int, length: int, from: int) {
    Monotone(f) && forall s, t :: f(s) == f(t) <==> SameSpan(s, t, length, from)
  }

  lemma HoursAreSpans()
    ensures Numbers(HourOf, HOUR_NS, 0)
  {
    forall s: Time, t: Time ensures HourOf(s) == HourOf(t) <==> SameSpan(s, t, HOUR_NS, 0) {
      assert HourOf(s) * HOUR_NS <= s < HourOf(s) * HOUR_NS + HOUR_NS;
      assert HourOf(t) * HOUR_NS <= t < HourOf(t) * HOUR_NS + HOUR_NS;
    }
  }

  lemma DaysAreSpans()
    ensures Numbers(DayOf, DAY_NS, 0)
  {
    forall s: Time, t: Time ensures DayOf(s) == DayOf(t) <==> SameSpan(s, t, DAY_NS, 0) {
      assert DayOf(s) * DAY_NS <= s < DayOf(s) * DAY_NS + DAY_NS;
      assert DayOf(t) * DAY_NS <= t < DayOf(t) * DAY_NS + DAY_NS;
    }
  }

  lemma WeeksAreSpans()
    ensures Numbers(WeekOf, 7 * DAY_NS, MONDAY_NS)
  {
    forall s: Time, t: Time ensures WeekOf(s) == WeekOf(t) <==> SameSpan(s, t, 7 * DAY_NS, MONDAY_NS) {
      var k, l := WeekOf(s) - 1, WeekOf(t) - 1;
      assert k * (7 * DAY_NS) + MONDAY_NS <= s < k * (7 * DAY_NS) + 7 * DAY_NS + MONDAY_NS;
      assert l * (7 * DAY_NS) + MONDAY_NS <= t < l * (7 * DAY_NS) + 7 * DAY_NS + MONDAY_NS;
    }
  }

  ghost function BucketsOf(cs: set<Candidate>, f: Time -> int): set<int> {
    set d | d in cs :: f(d.time)
  }

  /** No two of them are in the same bucket. */
  ghost predicate Spread(cs: set<Candidate>, f: Time -> int) {
    forall c, d | c in cs && d in cs && c != d :: f(c.time) != f(d.time)
  }

  /** One candidate of each bucket. */
  lemma {:induction false} Representatives(cs: set<Candidate>, f: Time -> int) returns (some: set<Candidate>)
    ensures some <= cs && |some| == |BucketsOf(cs, f)| && BucketsOf(some, f) == BucketsOf(cs, f) && Spread(some, f)
    decreases cs
  {
    hide BucketsOf, Spread;
    some := {};
    NoCandidates(f);
    if cs != {} {
      var d :| d in cs;
      some := Representatives(cs - {d}, f);
      OneCandidateMore(cs - {d}, d, f);
      OneCandidateMore(some, d, f);
      assert cs - {d} + {d} == cs;
      if f(d.time) !in BucketsOf(some, f) {
        some := some + {d};
      } else {
        assert BucketsOf(some, f) + {f(d.time)} == BucketsOf(some, f);
      }
    }
  }

  lemma NoCandidates(f: Time -> int)
    ensures BucketsOf({}, f) == {} && Spread({}, f)
  {
  }

  lemma OneCandidateMore(cs: set<Candidate>, d: Candidate, f: Time -> int)
    ensures BucketsOf(cs + {d}, f) == BucketsOf(cs, f) + {f(d.time)}
    ensures f(d.time) !in BucketsOf(cs, f) ==> d !in cs && (Spread(cs, f) ==> Spread(cs + {d}, f))
  {
  }

  lemma {:induction false} SomeOf(cs: set<Candidate>, n: nat) returns (some: set<Candidate>)
    requires n <= |cs|
    ensures some <= cs && |some| == n
    decreases |cs|
  {
    some := cs;
    if n < |cs| {
      var d :| d in cs;
      some := SomeOf(cs - {d}, n);
    }
  }

  /** Candidates of different buckets are no more than the buckets. */
  lemma {:induction false} NoMoreThanBuckets(later: set<Candidate>, f: Time -> int, buckets: set<int>)
    requires forall d | d in later :: f(d.time) in buckets
    requires Spread(later, f)
    ensures |later| <= |buckets|
    decreases later
  {
    if later != {} {
      var d :| d in later;
      NoMoreThanBuckets(later - {d}, f, buckets - {f(d.time)});
    }
  }

  lemma LaterBuckets(cs: set<Candidate>, f: Time -> int, length: int, from: int, n: nat, c: Candidate)
    requires Numbers(f, length, from)
    ensures |BucketsAfter(cs, f, f(c.time))| >= n <==>
            exists later: set<Candidate> ::
              && later <= cs && |later| == n && Apart(later, length, from)
              && forall d | d in later :: d.time > c.time && !SameSpan(c.time, d.time, length, from)
  {
    hide SameSpan;
    var buckets := BucketsAfter(cs, f, f(c.time));
    if |buckets| >= n {
      var after := set d | d in cs && f(d.time) > f(c.time);
      assert BucketsOf(after, f) == buckets;
      var all := Representatives(after, f);
      var later := SomeOf(all, n);
      forall d | d in later ensures d.time > c.time && !SameSpan(c.time, d.time, length, from) {
        assert f(d.time) > f(c.time);
      }
      assert Apart(later, length, from);
    }
    if later: set<Candidate> :|
        && later <= cs && |later| == n && Apart(later, length, from)
        && forall d | d in later :: d.time > c.time && !SameSpan(c.time, d.time, length, from) {
      forall d | d in later ensures f(d.time) in buckets {
        assert f(d.time) != f(c.time) && f(c.time) <= f(d.time);
      }
      NoMoreThanBuckets(later, f, buckets);
    }
  }

  lemma BucketIsSpan(cs: set<Candidate>, f: Time -> int, length: int, from: int, n: nat, c: Candidate)
    requires Numbers(f, length, from)
    ensures KeptByBucket(cs, f, n, c) <==> KeptBySpan(cs, length, from, n, c)
  {
    hide SameSpan;
    LaterBuckets(cs, f, length, from, n, c);
  }

  /** Which reasons the rules of a policy give. */
  lemma {:induction false} ReasonIsGiven(cs: set<Candidate>, rules: seq<Rule>, c: Candidate, reason: Reason)
    ensures reason in RuleReasons(cs, rules, c) <==>
            exists k :: 0 <= k < |rules| && rules[k].reason == reason && KeptByBucket(cs, rules[k].bucketOf, rules[k].count, c)
    decreases |rules|
  {
    hide KeptByBucket;
    if rules != [] {
      ReasonIsGiven(cs, rules[..|rules| - 1], c, reason);
    }
  }

  ghost predicate OnlyRule(rules: seq<Rule>, reason: Reason, count: Option<nat>, f: Time -> int) {
    && (forall rule | rule in rules && rule.reason == reason :: count == Some(rule.count) && rule.bucketOf == f)
    && (count.Some? ==> Rule(reason, count.value, f) in rules)
  }

  lemma OneRuleEach(p: Policy, cal: Calendar)
    ensures var rules := Rules(p, cal);
            && OnlyRule(rules, Hourly, p.keepHourly, HourOf) && OnlyRule(rules, Daily, p.keepDaily, DayOf)
            && OnlyRule(rules, Weekly, p.keepWeekly, WeekOf) && OnlyRule(rules, Monthly, p.keepMonthly, cal.month)
            && OnlyRule(rules, Yearly, p.keepYearly, cal.year)
  {
  }

  /** Only the rule of that name gives the reason. */
  lemma OneRule(cs: set<Candidate>, rules: seq<Rule>, c: Candidate, reason: Reason, count: Option<nat>, f: Time -> int)
    requires OnlyRule(rules, reason, count, f)
    ensures reason in RuleReasons(cs, rules, c) <==> count.Some? && KeptByBucket(cs, f, count.value, c)
  {
    hide KeptByBucket;
    ReasonIsGiven(cs, rules, c, reason);
  }

  /** What the hourly, daily and weekly rules keep: the newest of its UTC hour, day or ISO week, unless there are as many
      later ones with a candidate as the rule keeps. */
  lemma RulesKeepSpans(cs: set<Candidate>, p: Policy, cal: Calendar, c: Candidate)
    ensures Hourly in Reasons(cs, p, cal, c) <==> p.keepHourly.Some? && KeptBySpan(cs, HOUR_NS, 0, p.keepHourly.value, c)
    ensures Daily in Reasons(cs, p, cal, c) <==> p.keepDaily.Some? && KeptBySpan(cs, DAY_NS, 0, p.keepDaily.value, c)
    ensures Weekly in Reasons(cs, p, cal, c) <==>
              p.keepWeekly.Some? && KeptBySpan(cs, 7 * DAY_NS, MONDAY_NS, p.keepWeekly.value, c)
    ensures Monthly in Reasons(cs, p, cal, c) <==>
              p.keepMonthly.Some? && KeptByBucket(cs, cal.month, p.keepMonthly.value, c)
    ensures Yearly in Reasons(cs, p, cal, c) <==> p.keepYearly.Some? && KeptByBucket(cs, cal.year, p.keepYearly.value, c)
  {
    hide KeptByBucket, KeptBySpan, RuleReasons, KeptByLast, KeptByWithin, Numbers, HourOf, DayOf, WeekOf;
    HoursAreSpans();
    DaysAreSpans();
    WeeksAreSpans();
    var rules := Rules(p, cal);
    OneRuleEach(p, cal);
    hide Rules, OnlyRule;
    if p.keepHourly.Some? {
      BucketIsSpan(cs, HourOf, HOUR_NS, 0, p.keepHourly.value, c);
    }
    if p.keepDaily.Some? {
      BucketIsSpan(cs, DayOf, DAY_NS, 0, p.keepDaily.value, c);
    }
    if p.keepWeekly.Some? {
      BucketIsSpan(cs, WeekOf, 7 * DAY_NS, MONDAY_NS, p.keepWeekly.value, c);
    }
    OneRule(cs, rules, c, Hourly, p.keepHourly, HourOf);
    OneRule(cs, rules, c, Daily, p.keepDaily, DayOf);
    OneRule(cs, rules, c, Weekly, p.keepWeekly, WeekOf);
    OneRule(cs, rules, c, Monthly, p.keepMonthly, cal.month);
    OneRule(cs, rules, c, Yearly, p.keepYearly, cal.year);
  }

  /** Two snapshots that a rule keeps never share an hour, a day or a week. */
  lemma OneKeptOfASpan(cs: set<Candidate>, p: Policy, cal: Calendar, c: Candidate, d: Candidate)
    requires c in cs && d in cs && c != d
    ensures Hourly in Reasons(cs, p, cal, c) && Hourly in Reasons(cs, p, cal, d) ==> !SameSpan(c.time, d.time, HOUR_NS, 0)
    ensures Daily in Reasons(cs, p, cal, c) && Daily in Reasons(cs, p, cal, d) ==> !SameSpan(c.time, d.time, DAY_NS, 0)
    ensures Weekly in Reasons(cs, p, cal, c) && Weekly in Reasons(cs, p, cal, d) ==>
              !SameSpan(c.time, d.time, 7 * DAY_NS, MONDAY_NS)
  {
    hide Reasons;
    RulesKeepSpans(cs, p, cal, c);
    RulesKeepSpans(cs, p, cal, d);
    forall length, from | SameSpan(c.time, d.time, length, from) ensures SameSpan(d.time, c.time, length, from) {
    }
  }

  // ---------- the greedy pass ----------

  datatype Bucket = Bucket(rule: Rule, remaining: nat, last: Option<int>)

  ghost function Seen(sorted: seq<Candidate>, i: nat, f: Time -> int): set<int>
    requires i <= |sorted|
  {
    set j | 0 <= j < i :: f(sorted[j].time)
  }

  /** What a bucket counter remembers of the first `i` candidates. */
  ghost predicate Counts(b: Bucket, rule: Rule, sorted: seq<Candidate>, i: nat)
    requires i <= |sorted|
  {
    && b.rule == rule
    && if b.remaining == 0 then |Seen(sorted, i, rule.bucketOf)| >= rule.count
       else
         && |Seen(sorted, i, rule.bucketOf)| + b.remaining == rule.count
         && b.last == if i == 0 then None else Some(rule.bucketOf(sorted[i - 1].time))
  }

  lemma SeenSnoc(sorted: seq<Candidate>, i: nat, f: Time -> int)
    requires i < |sorted|
    ensures Seen(sorted, i + 1, f) == Seen(sorted, i, f) + {f(sorted[i].time)}
  {
  }

  /** In newest-first order equal buckets are neighbours. */
  lemma SeenBefore(sorted: seq<Candidate>, i: nat, f: Time -> int)
    requires NewestFirst(sorted) && i < |sorted| && Monotone(f)
    ensures f(sorted[i].time) in Seen(sorted, i, f) <==> i > 0 && f(sorted[i - 1].time) == f(sorted[i].time)
  {
    if f(sorted[i].time) in Seen(sorted, i, f) {
      var j :| 0 <= j < i && f(sorted[j].time) == f(sorted[i].time);
      assert sorted[j].time >= sorted[i - 1].time >= sorted[i].time by {
        assert j == i - 1 || Newer(sorted[j], sorted[i - 1]);
        assert Newer(sorted[i - 1], sorted[i]);
      }
    }
  }

  /** What the counter decides is what the rule says. */
  lemma FirstOfItsBucket(sorted: seq<Candidate>, i: nat, f: Time -> int, n: nat)
    requires NewestFirst(sorted) && i < |sorted| && Monotone(f)
    ensures KeptByBucket(Members(sorted), f, n, sorted[i]) <==>
              (f(sorted[i].time) !in Seen(sorted, i, f) && |Seen(sorted, i, f)| < n)
  {
    var cs, c := Members(sorted), sorted[i];
    if f(c.time) in Seen(sorted, i, f) {
      var j :| 0 <= j < i && f(sorted[j].time) == f(c.time);
      assert sorted[j] in cs && Newer(sorted[j], c);
    } else {
      forall d | d in cs && f(d.time) == f(c.time) && d != c ensures Newer(c, d) {
        var j :| 0 <= j < |sorted| && sorted[j] == d;
        assert j > i;
      }
      AfterIsSeen(sorted, i, f);
    }
  }

  lemma AfterIsSeen(sorted: seq<Candidate>, i: nat, f: Time -> int)
    requires NewestFirst(sorted) && i < |sorted| && Monotone(f) && f(sorted[i].time) !in Seen(sorted, i, f)
    ensures BucketsAfter(Members(sorted), f, f(sorted[i].time)) == Seen(sorted, i, f)
  {
    var k := f(sorted[i].time);
    forall x | x in BucketsAfter(Members(sorted), f, k) ensures x in Seen(sorted, i, f) {
      var d :| d in Members(sorted) && f(d.time) > k && f(d.time) == x;
      var j :| 0 <= j < |sorted| && sorted[j] == d;
      assert j < i;
    }
    forall x | x in Seen(sorted, i, f) ensures x in BucketsAfter(Members(sorted), f, k) {
      var j :| 0 <= j < i && f(sorted[j].time) == x;
      assert Newer(sorted[j], sorted[i]) && sorted[j] in Members(sorted);
    }
  }

  ghost predicate AllCount(bs: seq<Bucket>, rules: seq<Rule>, sorted: seq<Candidate>, i: nat)
    requires i <= |sorted|
  {
    |bs| == |rules| && forall k | 0 <= k < |bs| :: Counts(bs[k], rules[k], sorted, i)
  }

  /** One candidate against one counter. */
  method Offer(b: Bucket, ghost sorted: seq<Candidate>, ghost i: nat, time: Time) returns (b': Bucket, kept: bool)
    requires NewestFirst(sorted) && i < |sorted| && sorted[i].time == time
    requires Monotone(b.rule.bucketOf) && Counts(b, b.rule, sorted, i)
    ensures Counts(b', b.rule, sorted, i + 1)
    ensures kept <==> KeptByBucket(Members(sorted), b.rule.bucketOf, b.rule.count, sorted[i])
  {
    hide Members, KeptByBucket, Monotone, NewestFirst;
    FirstOfItsBucket(sorted, i, b.rule.bucketOf, b.rule.count);
    SeenBefore(sorted, i, b.rule.bucketOf);
    SeenSnoc(sorted, i, b.rule.bucketOf);
    ghost var seen := Seen(sorted, i, b.rule.bucketOf);
    var k := b.rule.bucketOf(time);
    assert k in seen ==> seen + {k} == seen;
    if b.remaining == 0 {
      return b, false;
    }
    assert i == 0 ==> seen == {};
    if b.last != Some(k) {
      assert k !in seen;
      return b.(last := Some(k), remaining := b.remaining - 1), true;
    }
    assert seen + {k} == seen;
    return b, false;
  }

  function Fresh(rules: seq<Rule>): seq<Bucket> {
    seq(|rules|, k requires 0 <= k < |rules| => Bucket(rules[k], rules[k].count, None))
  }

  ghost predicate Output(cs: set<Candidate>, p: Policy, cal: Calendar, sorted: seq<Candidate>, i: nat,
                         out: seq<(Key, seq<Reason>)>)
    requires i <= |sorted|
  {
    |out| == i && forall k | 0 <= k < i :: out[k] == (sorted[k].key, Reasons(cs, p, cal, sorted[k]))
  }

  lemma RulesAreMonotone(p: Policy, cal: Calendar)
    requires cal.Valid()
    ensures forall r | r in Rules(p, cal) :: Monotone(r.bucketOf)
  {
    HoursDaysAndWeeksGrow();
  }

  /** In newest-first order the candidates ahead of the `i`-th are the first `i`. */
  lemma {:induction false} AheadCount(sorted: seq<Candidate>, i: nat)
    requires NewestFirst(sorted) && i < |sorted|
    ensures |Ahead(Members(sorted), sorted[i])| == i
  {
    var ahead := set j | 0 <= j < i :: sorted[j];
    forall d | d in Ahead(Members(sorted), sorted[i]) ensures d in ahead {
      var j :| 0 <= j < |sorted| && sorted[j] == d;
      assert j < i;
    }
    forall d | d in ahead ensures d in Ahead(Members(sorted), sorted[i]) {
      var j :| 0 <= j < i && sorted[j] == d;
      assert Newer(sorted[j], sorted[i]) && sorted[j] in Members(sorted);
    }
    assert ahead == Ahead(Members(sorted), sorted[i]);
    CountPrefix(sorted, i);
  }

  lemma {:induction false} CountPrefix(sorted: seq<Candidate>, i: nat)
    requires NewestFirst(sorted) && i <= |sorted|
    ensures |set j | 0 <= j < i :: sorted[j]| == i
  {
    if i > 0 {
      CountPrefix(sorted, i - 1);
      var front := set j | 0 <= j < i - 1 :: sorted[j];
      assert (set j | 0 <= j < i :: sorted[j]) == front + {sorted[i - 1]};
      assert sorted[i - 1] !in front;
    }
  }

  lemma WithinLatest(sorted: seq<Candidate>, within: nat, c: Candidate)
    requires NewestFirst(sorted) && sorted != []
    ensures KeptByWithin(Members(sorted), within, c) <==> c.time >= sorted[0].time - within
  {
    assert sorted[0] in Members(sorted);
    forall d | d in Members(sorted) ensures d.time <= sorted[0].time {
      var j :| 0 <= j < |sorted| && sorted[j] == d;
      assert j == 0 || Newer(sorted[0], sorted[j]);
    }
  }

  /** The bucket rules against one candidate. */
  method OfferAll(bs: seq<Bucket>, ghost rules: seq<Rule>, ghost sorted: seq<Candidate>, ghost i: nat, time: Time)
    returns (bs': seq<Bucket>, reasons: seq<Reason>)
    requires NewestFirst(sorted) && i < |sorted| && sorted[i].time == time
    requires AllCount(bs, rules, sorted, i) && forall r | r in rules :: Monotone(r.bucketOf)
    ensures AllCount(bs', rules, sorted, i + 1)
    ensures reasons == RuleReasons(Members(sorted), rules, sorted[i])
  {
    hide Members, KeptByBucket, Monotone, NewestFirst, Counts;
    bs', reasons := bs, [];
    for k := 0 to |bs|
      invariant |bs'| == |bs| && forall l | k <= l < |bs| :: bs'[l] == bs[l]
      invariant forall l | 0 <= l < k :: Counts(bs'[l], rules[l], sorted, i + 1)
      invariant reasons == RuleReasons(Members(sorted), rules[..k], sorted[i])
    {
      assert rules[k] in rules && bs'[k] == bs[k];
      assert bs[k].rule == rules[k] by { CountsItsRule(bs[k], rules[k], sorted, i); }
      var b, kept := Offer(bs'[k], sorted, i, time);
      bs' := bs'[k := b];
      if kept {
        reasons := reasons + [bs[k].rule.reason];
      }
      assert rules[..k + 1][..k] == rules[..k] && rules[..k + 1][k] == rules[k];
    }
    assert rules[..|rules|] == rules;
  }

  lemma CountsItsRule(b: Bucket, rule: Rule, sorted: seq<Candidate>, i: nat)
    requires i <= |sorted| && Counts(b, rule, sorted, i)
    ensures b.rule == rule
  {
  }

  /** `apply_policy`: one pass with counters gives every candidate of a group exactly the reasons the
      rules promise it. */
  method ApplyPolicy(candidates: seq<Candidate>, p: Policy, cal: Calendar) returns (out: seq<(Key, seq<Reason>)>)
    requires DistinctKeys(candidates) && cal.Valid()
    ensures Output(Members(candidates), p, cal, Sort(candidates), |candidates|, out)
  {
    hide Members, KeptByBucket, Monotone, NewestFirst, Counts, RuleReasons, KeptByLast, KeptByWithin, Rules;
    var sorted := Sort(candidates);
    ghost var cs := Members(candidates);
    var rules := Rules(p, cal);
    RulesAreMonotone(p, cal);
    var buckets := Fresh(rules);
    assert AllCount(buckets, rules, sorted, 0) by { FreshCounts(rules, sorted); }
    var lastRemaining := if p.keepLast.Some? then p.keepLast.value else 0;
    out := [];
    for i := 0 to |sorted|
      invariant AllCount(buckets, rules, sorted, i) && Output(cs, p, cal, sorted, i, out)
      invariant lastRemaining == (if p.keepLast.None? || i >= p.keepLast.value then 0 else p.keepLast.value - i)
    {
      var c := sorted[i];
      var reasons: seq<Reason> := [];
      AheadIsCounted(sorted, i, p.keepLast);
      if lastRemaining > 0 {
        lastRemaining := lastRemaining - 1;
        reasons := reasons + [Last];
      }
      if p.keepWithin.Some? {
        WithinLatest(sorted, p.keepWithin.value, c);
        if c.time >= sorted[0].time - p.keepWithin.value {
          reasons := reasons + [Within];
        }
      }
      var more;
      buckets, more := OfferAll(buckets, rules, sorted, i, c.time);
      assert reasons + more == Reasons(cs, p, cal, c);
      out := out + [(c.key, reasons + more)];
    }
  }

  lemma AheadIsCounted(sorted: seq<Candidate>, i: nat, keepLast: Option<nat>)
    requires NewestFirst(sorted) && i < |sorted|
    ensures keepLast.Some? ==> (KeptByLast(Members(sorted), keepLast.value, sorted[i]) <==> i < keepLast.value)
  {
    AheadCount(sorted, i);
  }

  lemma FreshCounts(rules: seq<Rule>, sorted: seq<Candidate>)
    ensures AllCount(Fresh(rules), rules, sorted, 0)
  {
    forall k | 0 <= k < |rules| ensures Counts(Fresh(rules)[k], rules[k], sorted, 0) {
      assert Seen(sorted, 0, rules[k].bucketOf) == {};
    }
  }

  /** The result does not depend on the order in which the snapshots are listed. */
  lemma OrderDoesNotMatter(a: seq<Candidate>, b: seq<Candidate>, p: Policy, cal: Calendar,
                           outA: seq<(Key, seq<Reason>)>, outB: seq<(Key, seq<Reason>)>)
    requires DistinctKeys(a) && DistinctKeys(b) && Members(a) == Members(b)
    requires Output(Members(a), p, cal, Sort(a), |a|, outA) && Output(Members(b), p, cal, Sort(b), |b|, outB)
    ensures outA == outB
  {
    hide Reasons;
    NewestFirstIsUnique(Sort(a), Sort(b));
  }

  ghost predicate Newest(cs: set<Candidate>, c: Candidate) {
    c in cs && forall d | d in cs && d != c :: Newer(c, d)
  }

  lemma {:induction false} SomeRuleKeeps(cs: set<Candidate>, rules: seq<Rule>, c: Candidate, k: nat)
    requires k < |rules| && KeptByBucket(cs, rules[k].bucketOf, rules[k].count, c)
    ensures RuleReasons(cs, rules, c) != []
    decreases |rules|
  {
    if k < |rules| - 1 {
      SomeRuleKeeps(cs, rules[..|rules| - 1], c, k);
    }
  }

  lemma NewestOfItsBucket(cs: set<Candidate>, f: Time -> int, n: nat, c: Candidate)
    requires Newest(cs, c) && Monotone(f) && n > 0
    ensures KeptByBucket(cs, f, n, c)
  {
    forall d | d in cs ensures f(d.time) <= f(c.time) {
      assert d == c || Newer(c, d);
    }
    assert BucketsAfter(cs, f, f(c.time)) == {};
  }

  /** A policy with a rule, and no rule of zero, keeps the newest snapshot of every group. */
  lemma NewestIsKept(cs: set<Candidate>, p: Policy, cal: Calendar, c: Candidate)
    requires p.Valid() && !p.IsEmpty() && cal.Valid() && Newest(cs, c)
    ensures Reasons(cs, p, cal, c) != []
  {
    if p.keepLast.Some? {
      assert Ahead(cs, c) == {} by {
        assert forall d | d in cs :: d == c || Newer(c, d);
      }
    } else if p.keepWithin.Some? {
      assert forall d | d in cs :: d == c || Newer(c, d);
    } else {
      var rules := Rules(p, cal);
      RulesAreMonotone(p, cal);
      assert rules[0] in rules && rules[0].count > 0;
      NewestOfItsBucket(cs, rules[0].bucketOf, rules[0].count, c);
      SomeRuleKeeps(cs, rules, c, 0);
    }
  }

  lemma {:induction false} NewestExists(cs: set<Candidate>)
    requires cs != {} && forall c, d | c in cs && d in cs && c != d :: c.key != d.key
    ensures exists c :: Newest(cs, c)
    decreases cs
  {
    var c :| c in cs;
    if cs == {c} {
      assert Newest(cs, c);
    } else {
      var rest := cs - {c};
      NewestExists(rest);
      var d :| Newest(rest, d);
      var newest := if Newer(c, d) then c else d;
      forall x | x in cs && x != newest ensures Newer(newest, x) {
        assert x == c || x in rest;
      }
      assert Newest(cs, newest);
    }
  }

  // ---------- forget ----------

  datatype Group = Group(client: nat, paths: seq<nat>)

  datatype Snapshot = Snapshot(key: Key, time: Time, group: Group)

  datatype Refusal = NothingToForget | ZeroRule | SnapshotNotFound(key: Key)

  datatype Summary = Summary(removed: seq<Key>, kept: seq<(Key, seq<Reason>)>)

  function CandidateOf(s: Snapshot): Candidate {
    Candidate(s.key, s.time)
  }

  ghost predicate DistinctSnapshots(all: seq<Snapshot>) {
    forall i, j | 0 <= i < j < |all| :: all[i].key != all[j].key
  }

  /** The snapshots of a group that were not named on the command line. */
  ghost function GroupSet(all: seq<Snapshot>, named: seq<Key>, g: Group): set<Candidate> {
    set s | s in all && s.key !in named && s.group == g :: CandidateOf(s)
  }

  /** Why the policy keeps `s`. */
  ghost function WhyKept(all: seq<Snapshot>, named: seq<Key>, p: Policy, cal: Calendar, s: Snapshot): seq<Reason> {
    Reasons(GroupSet(all, named, s.group), p, cal, CandidateOf(s))
  }

  ghost predicate Forgotten(all: seq<Snapshot>, named: seq<Key>, p: Policy, cal: Calendar, s: Snapshot) {
    s.key in named || (!p.IsEmpty() && WhyKept(all, named, p, cal, s) == [])
  }

  /** What the groups collected from the first `i` snapshots hold. */
  ghost predicate Collected(all: seq<Snapshot>, named: seq<Key>, i: nat, groups: map<Group, seq<Candidate>>)
    requires i <= |all|
  {
    && (forall g | g in groups :: DistinctKeys(groups[g]) && Members(groups[g]) == GroupSet(all[..i], named, g))
    && (forall g | g !in groups :: GroupSet(all[..i], named, g) == {})
  }

  lemma GroupSetSnoc(all: seq<Snapshot>, named: seq<Key>, i: nat, g: Group)
    requires i < |all|
    ensures GroupSet(all[..i + 1], named, g) == GroupSet(all[..i], named, g)
              + if all[i].key !in named && all[i].group == g then {CandidateOf(all[i])} else {}
  {
    assert all[..i + 1] == all[..i] + [all[i]];
  }

  method Collect(all: seq<Snapshot>, named: seq<Key>) returns (groups: map<Group, seq<Candidate>>)
    requires DistinctSnapshots(all)
    ensures Collected(all, named, |all|, groups)
  {
    groups := map[];
    for i := 0 to |all|
      invariant Collected(all, named, i, groups)
    {
      var s := all[i];
      forall g: Group ensures GroupSet(all[..i + 1], named, g) == GroupSet(all[..i], named, g)
                                + if s.key !in named && s.group == g then {CandidateOf(s)} else {} {
        GroupSetSnoc(all, named, i, g);
      }
      if s.key !in named {
        var before := if s.group in groups then groups[s.group] else [];
        assert Members(before) == GroupSet(all[..i], named, s.group);
        forall c | c in before ensures c.key != s.key {
          assert c in Members(before);
        }
        assert Members(before + [CandidateOf(s)]) == Members(before) + {CandidateOf(s)};
        groups := groups[s.group := before + [CandidateOf(s)]];
      }
    }
  }

  function InsertKey(k: Key, ks: seq<Key>): (out: seq<Key>)
    ensures forall x :: x in out <==> x == k || x in ks
  {
    if ks == [] || k < ks[0] then [k] + ks
    else if k == ks[0] then ks
    else
      assert ks == [ks[0]] + ks[1..];
      [ks[0]] + InsertKey(k, ks[1..])
  }

  /** `sort` and `dedup` */
  function SortedKeys(ks: seq<Key>): (out: seq<Key>)
    ensures forall x :: x in out <==> x in ks
  {
    if ks == [] then []
    else
      assert ks == [ks[0]] + ks[1..];
      InsertKey(ks[0], SortedKeys(ks[1..]))
  }

  /** The policy has been applied to the groups in `done`. */
  ghost predicate Applied(all: seq<Snapshot>, named: seq<Key>, p: Policy, cal: Calendar, done: set<Group>, r: Summary) {
    && (forall k :: k in r.removed <==>
          (k in named || exists s :: s in all && s.key == k && Decided(all, named, p, cal, done, s, [])))
    && (forall k, why :: (k, why) in r.kept <==>
          (why != [] && exists s :: s in all && s.key == k && Decided(all, named, p, cal, done, s, why)))
  }

  ghost predicate Decided(all: seq<Snapshot>, named: seq<Key>, p: Policy, cal: Calendar, done: set<Group>, s: Snapshot,
                          why: seq<Reason>) {
    s.key !in named && s.group in done && WhyKept(all, named, p, cal, s) == why
  }

  /** The pairs that `apply_policy` gives for a group are its snapshots with their reasons. */
  lemma OutputOfGroup(all: seq<Snapshot>, named: seq<Key>, p: Policy, cal: Calendar, g: Group,
                      cs: seq<Candidate>, out: seq<(Key, seq<Reason>)>, k: Key, why: seq<Reason>)
    requires DistinctKeys(cs) && Members(cs) == GroupSet(all, named, g)
    requires Output(Members(cs), p, cal, Sort(cs), |cs|, out)
    ensures (k, why) in out <==>
              exists s :: s in all && s.key == k && s.key !in named && s.group == g && WhyKept(all, named, p, cal, s) == why
  {
    hide Reasons, GroupSet;
    var sorted := Sort(cs);
    OutputPairs(Members(cs), p, cal, sorted, out, k, why);
    GroupMembers(all, named, g);
    assert forall c :: c in sorted <==> c in Members(sorted);
    if c :| c in sorted && c.key == k && Reasons(Members(cs), p, cal, c) == why {
      var s :| s in all && s.key !in named && s.group == g && CandidateOf(s) == c;
      assert WhyKept(all, named, p, cal, s) == why;
    }
    if s :| s in all && s.key == k && s.key !in named && s.group == g && WhyKept(all, named, p, cal, s) == why {
      assert CandidateOf(s) in sorted;
    }
  }

  lemma OutputPairs(cs: set<Candidate>, p: Policy, cal: Calendar, sorted: seq<Candidate>, out: seq<(Key, seq<Reason>)>,
                    k: Key, why: seq<Reason>)
    requires Output(cs, p, cal, sorted, |sorted|, out)
    ensures (k, why) in out <==> exists c :: c in sorted && c.key == k && Reasons(cs, p, cal, c) == why
  {
    hide Reasons;
    if (k, why) in out {
      var j :| 0 <= j < |out| && out[j] == (k, why);
      assert sorted[j] in sorted;
    }
    if c :| c in sorted && c.key == k && Reasons(cs, p, cal, c) == why {
      var j :| 0 <= j < |sorted| && sorted[j] == c;
      assert out[j] == (k, why);
    }
  }

  lemma GroupMembers(all: seq<Snapshot>, named: seq<Key>, g: Group)
    ensures forall c :: c in GroupSet(all, named, g) <==>
              exists s :: s in all && s.key !in named && s.group == g && CandidateOf(s) == c
  {
  }

  /** Sorts the pairs of one group into removed and kept. */
  method Divide(out: seq<(Key, seq<Reason>)>, r: Summary) returns (r': Summary)
    ensures forall k :: k in r'.removed <==> k in r.removed || (k, []) in out
    ensures forall k, why :: (k, why) in r'.kept <==> (k, why) in r.kept || (why != [] && (k, why) in out)
  {
    var removed, kept := r.removed, r.kept;
    for i := 0 to |out|
      invariant forall k :: k in removed <==> k in r.removed || (k, []) in out[..i]
      invariant forall k, why :: (k, why) in kept <==> (k, why) in r.kept || (why != [] && (k, why) in out[..i])
    {
      var (key, reasons) := out[i];
      assert out[..i + 1] == out[..i] + [(key, reasons)];
      if reasons == [] {
        removed := removed + [key];
      } else {
        kept := kept + [(key, reasons)];
      }
    }
    assert out[..|out|] == out;
    r' := Summary(removed, kept);
  }

  lemma AppliedNext(all: seq<Snapshot>, named: seq<Key>, p: Policy, cal: Calendar, done: set<Group>, g: Group,
                    r: Summary, out: seq<(Key, seq<Reason>)>, r': Summary)
    requires Applied(all, named, p, cal, done, r)
    requires forall k, why :: (k, why) in out <==>
               exists s :: s in all && s.key == k && s.key !in named && s.group == g && WhyKept(all, named, p, cal, s) == why
    requires forall k :: k in r'.removed <==> k in r.removed || (k, []) in out
    requires forall k, why :: (k, why) in r'.kept <==> (k, why) in r.kept || (why != [] && (k, why) in out)
    ensures Applied(all, named, p, cal, done + {g}, r')
  {
    hide WhyKept;
    forall s, why ensures Decided(all, named, p, cal, done + {g}, s, why) <==>
                            (Decided(all, named, p, cal, done, s, why)
                             || (s.key !in named && s.group == g && WhyKept(all, named, p, cal, s) == why)) {
    }
  }

  predicate KnownKey(all: seq<Snapshot>, k: Key) {
    exists s :: s in all && s.key == k
  }

  /** `k` is the first of the names that no snapshot has. */
  ghost predicate FirstMissing(all: seq<Snapshot>, named: seq<Key>, k: Key) {
    exists i :: 0 <= i < |named| && named[i] == k && !KnownKey(all, k) && forall j | 0 <= j < i :: KnownKey(all, named[j])
  }

  method FirstUnknown(all: seq<Snapshot>, named: seq<Key>) returns (r: Option<Key>)
    ensures r.None? ==> forall k | k in named :: KnownKey(all, k)
    ensures r.Some? ==> FirstMissing(all, named, r.value)
  {
    for i := 0 to |named|
      invariant forall j | 0 <= j < i :: KnownKey(all, named[j])
    {
      if !KnownKey(all, named[i]) {
        return Some(named[i]);
      }
    }
    r := None;
  }

  method ApplyToGroups(all: seq<Snapshot>, named: seq<Key>, p: Policy, cal: Calendar) returns (r: Summary)
    requires DistinctSnapshots(all) && cal.Valid()
    ensures Applied(all, named, p, cal, set s | s in all :: s.group, r)
  {
    hide Output, WhyKept;
    r := Summary(SortedKeys(named), []);
    var groups := Collect(all, named);
    assert all[..|all|] == all;
    var todo := groups.Keys;
    ghost var done: set<Group> := {};
    while todo != {}
      invariant todo <= groups.Keys && done == groups.Keys - todo
      invariant Applied(all, named, p, cal, done, r)
    {
      var g :| g in todo;
      var out := ApplyPolicy(groups[g], p, cal);
      forall k, why ensures (k, why) in out <==>
          exists s :: s in all && s.key == k && s.key !in named && s.group == g && WhyKept(all, named, p, cal, s) == why {
        OutputOfGroup(all, named, p, cal, g, groups[g], out, k, why);
      }
      ghost var before := r;
      r := Divide(out, r);
      AppliedNext(all, named, p, cal, done, g, before, out, r);
      done, todo := done + {g}, todo - {g};
    }
    EveryGroupCollected(all, named, groups);
    AppliedToAll(all, named, p, cal, done, r);
  }

  lemma EveryGroupCollected(all: seq<Snapshot>, named: seq<Key>, groups: map<Group, seq<Candidate>>)
    requires Collected(all, named, |all|, groups)
    ensures forall s | s in all && s.key !in named :: s.group in groups
  {
    assert all[..|all|] == all;
    forall s | s in all && s.key !in named ensures s.group in groups {
      assert CandidateOf(s) in GroupSet(all, named, s.group);
    }
  }

  lemma AppliedToAll(all: seq<Snapshot>, named: seq<Key>, p: Policy, cal: Calendar, done: set<Group>, r: Summary)
    requires Applied(all, named, p, cal, done, r)
    requires forall s | s in all && s.key !in named :: s.group in done
    ensures Applied(all, named, p, cal, set s | s in all :: s.group, r)
  {
    var every := set s | s in all :: s.group;
    forall s, why | s in all
      ensures Decided(all, named, p, cal, every, s, why) <==> Decided(all, named, p, cal, done, s, why) {
    }
  }

  /** `forget`: named snapshots go in any case, the others as the policy decides for their group. */
  method Forget(all: seq<Snapshot>, named: seq<Key>, p: Policy, cal: Calendar, dryRun: bool, stored: set<Key>)
    returns (r: Result<Summary, Refusal>, left: set<Key>)
    requires DistinctSnapshots(all) && cal.Valid()
    ensures named == [] && p.IsEmpty() ==> r == Err(NothingToForget)
    ensures !(named == [] && p.IsEmpty()) && !p.Valid() ==> r == Err(ZeroRule)
    ensures !(named == [] && p.IsEmpty()) && p.Valid() ==>
              if forall k | k in named :: KnownKey(all, k) then r.Ok?
              else r.Err? && r.error.SnapshotNotFound? && FirstMissing(all, named, r.error.key)
    ensures r.Ok? ==> forall s | s in all :: s.key in r.value.removed <==> Forgotten(all, named, p, cal, s)
    ensures r.Ok? ==> forall k | k in r.value.removed :: KnownKey(all, k)
    ensures r.Ok? ==> forall k, why :: (k, why) in r.value.kept <==>
              exists s :: s in all && s.key == k && KeptFor(all, named, p, cal, s, why)
    ensures left == if r.Err? || dryRun then stored else stored - set k | k in r.value.removed
  {
    left := stored;
    if named == [] && p.IsEmpty() {
      return Err(NothingToForget), left;
    }
    if !p.Valid() {
      return Err(ZeroRule), left;
    }
    var unknown := FirstUnknown(all, named);
    if unknown.Some? {
      return Err(SnapshotNotFound(unknown.value)), left;
    }
    var summary := Summary(SortedKeys(named), []);
    if !p.IsEmpty() {
      summary := ApplyToGroups(all, named, p, cal);
      RemovedMeansForgotten(all, named, p, cal, summary);
      KeptMeansKeptFor(all, named, p, cal, summary);
    }
    if !dryRun {
      for i := 0 to |summary.removed|
        invariant left == stored - set k | k in summary.removed[..i]
      {
        assert summary.removed[..i + 1] == summary.removed[..i] + [summary.removed[i]];
        left := left - {summary.removed[i]};
      }
      assert summary.removed[..|summary.removed|] == summary.removed;
    }
    r := Ok(summary);
  }

  /** The policy was applied, and these are the reasons it gives to keep the snapshot. */
  ghost predicate KeptFor(all: seq<Snapshot>, named: seq<Key>, p: Policy, cal: Calendar, s: Snapshot, why: seq<Reason>) {
    !p.IsEmpty() && s.key !in named && why != [] && WhyKept(all, named, p, cal, s) == why
  }

  lemma KeptMeansKeptFor(all: seq<Snapshot>, named: seq<Key>, p: Policy, cal: Calendar, r: Summary)
    requires !p.IsEmpty() && Applied(all, named, p, cal, set s | s in all :: s.group, r)
    ensures forall k, why :: (k, why) in r.kept <==> exists s :: s in all && s.key == k && KeptFor(all, named, p, cal, s, why)
  {
    hide WhyKept;
    var every := set s | s in all :: s.group;
    forall k, why
      ensures (k, why) in r.kept <==> exists s :: s in all && s.key == k && KeptFor(all, named, p, cal, s, why)
    {
      if s :| s in all && s.key == k && KeptFor(all, named, p, cal, s, why) {
        assert Decided(all, named, p, cal, every, s, why);
      }
      if (k, why) in r.kept {
        var s :| s in all && s.key == k && Decided(all, named, p, cal, every, s, why);
        assert KeptFor(all, named, p, cal, s, why);
      }
    }
  }

  lemma RemovedMeansForgotten(all: seq<Snapshot>, named: seq<Key>, p: Policy, cal: Calendar, r: Summary)
    requires DistinctSnapshots(all) && !p.IsEmpty()
    requires Applied(all, named, p, cal, set s | s in all :: s.group, r)
    ensures forall s | s in all :: s.key in r.removed <==> Forgotten(all, named, p, cal, s)
    ensures forall k | k in r.removed :: k in named || KnownKey(all, k)
  {
    hide WhyKept;
    var every := set s | s in all :: s.group;
    forall s | s in all ensures s.key in r.removed <==> Forgotten(all, named, p, cal, s) {
      if Forgotten(all, named, p, cal, s) && s.key !in named {
        assert Decided(all, named, p, cal, every, s, []);
      }
      if s.key in r.removed && s.key !in named {
        var s' :| s' in all && s'.key == s.key && Decided(all, named, p, cal, every, s', []);
        assert s' == s;
      }
    }
  }

  /** A policy never empties a group: the newest of the snapshots that were not named stays. */
  lemma GroupIsNeverEmptied(all: seq<Snapshot>, named: seq<Key>, p: Policy, cal: Calendar, s: Snapshot)
    requires DistinctSnapshots(all) && cal.Valid() && p.Valid() && s in all && s.key !in named
    ensures exists t :: t in all && t.key !in named && t.group == s.group
                        && Newest(GroupSet(all, named, s.group), CandidateOf(t)) && !Forgotten(all, named, p, cal, t)
  {
    hide Reasons;
    var cs := GroupSet(all, named, s.group);
    assert CandidateOf(s) in cs;
    NewestExists(cs);
    var c :| Newest(cs, c);
    var t :| t in all && t.key !in named && t.group == s.group && CandidateOf(t) == c;
    if !p.IsEmpty() {
      NewestIsKept(cs, p, cal, c);
    }
    assert !Forgotten(all, named, p, cal, t);
  }
}
