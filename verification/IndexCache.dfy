/** The local index cache: a sorted table and the list of blobs merged into it
  (cache.rs, repo.rs). Blobs are named by their content, so `blob` says what any
  name stands for, whether or not the object is still stored. */
module IndexCaching {
  import opened Wrappers
  import opened ChunkTable
  import opened ChunkIndexing

  datatype IndexBlob = IndexBlob(packs: seq<IndexPack>, supersedes: seq<Id>)

  type Content = Id -> IndexBlob

  function BlobRecords(b: IndexBlob): seq<Record> {
    Flatten(b.packs)
  }

  function BlobPacks(b: IndexBlob): set<(Id, nat)> {
    set p | p in b.packs :: (p.pack, p.size)
  }

  // ---------- what readers use ----------

  predicate SupersededBy(blob: Content, ids: seq<Id>, x: Id) {
    exists y :: y in ids && x in blob(y).supersedes
  }

  /** `load_index_blobs`: the live blobs that no live blob supersedes. */
  ghost predicate IsEffective(blob: Content, live: seq<Id>, x: Id) {
    x in live && !SupersededBy(blob, live, x)
  }

  /** The table holds exactly the chunks of the blobs `ids`, each at a place one of them gives. */
  ghost predicate TableFor(blob: Content, ids: seq<Id>, t: seq<Record>) {
    && StrictlySorted(t)
    && (forall c | c in MapOf(t) :: exists x :: x in ids && Record(c, MapOf(t)[c]) in BlobRecords(blob(x)))
    && (forall x, r | x in ids && r in BlobRecords(blob(x)) :: r.id in MapOf(t))
  }

  /** The packs, with their sizes, that the blobs `ids` list. */
  function PacksOf(blob: Content, ids: seq<Id>): set<(Id, nat)> {
    set x, p | x in ids && p in BlobPacks(blob(x)) :: p
  }

  // ---------- building a table ----------

  lemma SortedSnoc(t: seq<Record>, r: Record)
    requires StrictlySorted(t) && (t != [] ==> t[|t| - 1].id < r.id)
    ensures StrictlySorted(t + [r])
  {
  }

  lemma MapSnoc(t: seq<Record>, r: Record)
    ensures MapOf(t + [r]) == MapOf(t)[r.id := r.location]
  {
    var out := t + [r];
    assert out[..|out| - 1] == t && out[|out| - 1] == r;
  }

  /** Into its place in the sorted table, unless the chunk is there already. */
  function InsertById(r: Record, t: seq<Record>): seq<Record>
    decreases |t|
  {
    if t == [] || t[|t| - 1].id < r.id then t + [r]
    else if t[|t| - 1].id == r.id then t
    else InsertById(r, t[..|t| - 1]) + [t[|t| - 1]]
  }

  lemma {:induction false} InsertKeepsSorted(r: Record, t: seq<Record>)
    requires StrictlySorted(t)
    ensures var out := InsertById(r, t);
            && StrictlySorted(out) && out != []
            && out[|out| - 1].id == if t == [] || t[|t| - 1].id < r.id then r.id else t[|t| - 1].id
    decreases |t|
  {
    if t != [] && t[|t| - 1].id > r.id {
      InsertKeepsSorted(r, t[..|t| - 1]);
      SortedSnoc(InsertById(r, t[..|t| - 1]), t[|t| - 1]);
    }
  }

  lemma {:induction false} InsertKeepsMap(r: Record, t: seq<Record>)
    requires StrictlySorted(t)
    ensures MapOf(InsertById(r, t)) == if r.id in MapOf(t) then MapOf(t) else MapOf(t)[r.id := r.location]
    decreases |t|
  {
    if t == [] || t[|t| - 1].id < r.id {
      MapSnoc(t, r);
      if r.id in MapOf(t) {
        MapOfKey(t, r.id);
      }
    } else if t[|t| - 1].id > r.id {
      InsertKeepsMap(r, t[..|t| - 1]);
      MapSnoc(InsertById(r, t[..|t| - 1]), t[|t| - 1]);
    }
  }

  /** `sort_by_key` and `dedup_by`: of several records for a chunk the first stays. */
  function BuildTable(rs: seq<Record>): seq<Record>
    decreases |rs|
  {
    if rs == [] then [] else InsertById(rs[|rs| - 1], BuildTable(rs[..|rs| - 1]))
  }

  /** The table as a map: the first record of a chunk counts. */
  ghost function FirstOf(rs: seq<Record>): map<Id, Location> {
    if rs == [] then map[]
    else
      var m, r := FirstOf(rs[..|rs| - 1]), rs[|rs| - 1];
      if r.id in m then m else m[r.id := r.location]
  }

  lemma {:induction false} BuildTableMaps(rs: seq<Record>)
    ensures StrictlySorted(BuildTable(rs)) && MapOf(BuildTable(rs)) == FirstOf(rs)
    decreases |rs|
  {
    if rs != [] {
      BuildTableMaps(rs[..|rs| - 1]);
      InsertKeepsSorted(rs[|rs| - 1], BuildTable(rs[..|rs| - 1]));
      InsertKeepsMap(rs[|rs| - 1], BuildTable(rs[..|rs| - 1]));
    }
  }

  lemma {:induction false} FirstOfMembers(rs: seq<Record>)
    ensures forall r | r in rs :: r.id in FirstOf(rs)
    ensures forall c | c in FirstOf(rs) :: Record(c, FirstOf(rs)[c]) in rs
    decreases |rs|
  {
    if rs != [] {
      var front, last := rs[..|rs| - 1], rs[|rs| - 1];
      FirstOfMembers(front);
      assert rs == front + [last];
      assert last == Record(last.id, last.location);
    }
  }

  lemma AbsentBelow(t: seq<Record>, j: nat, id: Id)
    requires j <= |t| && forall k | 0 <= k < j :: t[k].id < id
    ensures id !in MapOf(t[..j])
  {
    if id in MapOf(t[..j]) {
      MapOfKey(t[..j], id);
    }
  }

  /** Both cursors, and what has been merged up to them. */
  ghost predicate Merging(before: seq<Record>, added: seq<Record>, i: nat, j: nat, out: seq<Record>) {
    && i <= |before| && j <= |added|
    && StrictlySorted(out)
    && (out != [] && i < |before| ==> out[|out| - 1].id < before[i].id)
    && (out != [] && j < |added| ==> out[|out| - 1].id < added[j].id)
    && (i < |before| ==> forall k | 0 <= k < j :: added[k].id < before[i].id)
    && MapOf(out) == MapOf(before[..i]) + MapOf(added[..j])
  }

  lemma PrefixMap(t: seq<Record>, i: nat)
    requires i < |t|
    ensures MapOf(t[..i + 1]) == MapOf(t[..i])[t[i].id := t[i].location]
  {
    assert t[..i + 1] == t[..i] + [t[i]];
    MapSnoc(t[..i], t[i]);
  }

  lemma TakeAdded(before: seq<Record>, added: seq<Record>, i: nat, j: nat, out: seq<Record>)
    requires StrictlySorted(before) && StrictlySorted(added) && Merging(before, added, i, j, out)
    requires j < |added| && (i < |before| ==> added[j].id < before[i].id)
    ensures Merging(before, added, i, j + 1, out + [added[j]])
  {
    SortedSnoc(out, added[j]);
    MapSnoc(out, added[j]);
    PrefixMap(added, j);
  }

  lemma TakeBoth(before: seq<Record>, added: seq<Record>, i: nat, j: nat, out: seq<Record>)
    requires StrictlySorted(before) && StrictlySorted(added) && Merging(before, added, i, j, out)
    requires j < |added| && i < |before| && added[j].id == before[i].id
    ensures Merging(before, added, i + 1, j + 1, out + [added[j]])
  {
    SortedSnoc(out, added[j]);
    MapSnoc(out, added[j]);
    PrefixMap(added, j);
    PrefixMap(before, i);
  }

  lemma TakeBefore(before: seq<Record>, added: seq<Record>, i: nat, j: nat, out: seq<Record>)
    requires StrictlySorted(before) && StrictlySorted(added) && Merging(before, added, i, j, out)
    requires i < |before| && (j < |added| ==> before[i].id < added[j].id)
    ensures Merging(before, added, i + 1, j, out + [before[i]])
  {
    SortedSnoc(out, before[i]);
    MapSnoc(out, before[i]);
    PrefixMap(before, i);
    AbsentBelow(added, j, before[i].id);
  }

  /** `MergeOldNew`: two sorted tables, two cursors; on the same chunk the new record wins. */
  method MergeOldNew(before: seq<Record>, added: seq<Record>) returns (out: seq<Record>)
    requires StrictlySorted(before) && StrictlySorted(added)
    ensures StrictlySorted(out)
    ensures MapOf(out) == MapOf(before) + MapOf(added)
  {
    out := [];
    var i, j := 0, 0;
    while i < |before| || j < |added|
      invariant 0 <= i && 0 <= j && Merging(before, added, i, j, out)
      decreases |before| - i + |added| - j
    {
      if j < |added| && (i == |before| || added[j].id <= before[i].id) {
        if i < |before| && added[j].id == before[i].id {
          TakeBoth(before, added, i, j, out);
          out, i, j := out + [added[j]], i + 1, j + 1;
        } else {
          TakeAdded(before, added, i, j, out);
          out, j := out + [added[j]], j + 1;
        }
      } else {
        TakeBefore(before, added, i, j, out);
        out := out + [before[i]];
        i := i + 1;
      }
    }
    assert added[..|added|] == added && before[..|before|] == before;
  }

  // ---------- choosing the blobs ----------

  /** The ids of `xs` that no id of `ys` supersedes, in order. */
  function Unsuperseded(blob: Content, xs: seq<Id>, ys: seq<Id>): (out: seq<Id>)
    ensures forall x :: x in out <==> x in xs && !SupersededBy(blob, ys, x)
  {
    if xs == [] then []
    else
      assert xs == xs[..|xs| - 1] + [xs[|xs| - 1]];
      var front := Unsuperseded(blob, xs[..|xs| - 1], ys);
      if SupersededBy(blob, ys, xs[|xs| - 1]) then front else front + [xs[|xs| - 1]]
  }

  function NotIn(xs: seq<Id>, known: seq<Id>): (out: seq<Id>)
    ensures forall x :: x in out <==> x in xs && x !in known
  {
    if xs == [] then []
    else
      assert xs == xs[..|xs| - 1] + [xs[|xs| - 1]];
      var front := NotIn(xs[..|xs| - 1], known);
      if xs[|xs| - 1] in known then front else front + [xs[|xs| - 1]]
  }

  predicate Covers(live: seq<Id>, known: seq<Id>) {
    forall x | x in known :: x in live
  }

  predicate Replaces(blob: Content, ys: seq<Id>, known: seq<Id>) {
    exists x :: x in known && SupersededBy(blob, ys, x)
  }

  /** The manifest after `load`: which blobs the table is made of. */
  function NextBlobs(blob: Content, known: Option<seq<Id>>, live: seq<Id>): seq<Id> {
    if known.None? || !Covers(live, known.value) then Unsuperseded(blob, live, live)
    else
      var fresh_ := NotIn(live, known.value);
      if fresh_ == [] then known.value
      else if Replaces(blob, fresh_, known.value) then Unsuperseded(blob, live, live)
      else known.value + Unsuperseded(blob, fresh_, fresh_)
  }

  // ---------- the cache ----------

  function Pushed(blob: Content, ids: seq<Id>): seq<Record> {
    if ids == [] then [] else Pushed(blob, ids[..|ids| - 1]) + BlobRecords(blob(ids[|ids| - 1]))
  }

  lemma {:induction false} PushedMembers(blob: Content, ids: seq<Id>)
    ensures forall r :: r in Pushed(blob, ids) <==> exists x :: x in ids && r in BlobRecords(blob(x))
    decreases |ids|
  {
    if ids != [] {
      var front, last := ids[..|ids| - 1], ids[|ids| - 1];
      PushedMembers(blob, front);
      assert ids == front + [last];
      forall r ensures r in Pushed(blob, ids) <==> exists x :: x in ids && r in BlobRecords(blob(x)) {
        if r in BlobRecords(blob(last)) {
          assert last in ids;
        } else if r in Pushed(blob, front) {
          var x :| x in front && r in BlobRecords(blob(x));
          assert x in ids;
        }
      }
    }
  }

  lemma BuiltTableFor(blob: Content, ids: seq<Id>)
    ensures TableFor(blob, ids, BuildTable(Pushed(blob, ids)))
  {
    BuildTableMaps(Pushed(blob, ids));
    FirstOfMembers(Pushed(blob, ids));
    PushedMembers(blob, ids);
  }

  lemma MergedTableFor(blob: Content, known: seq<Id>, added: seq<Id>,
                       t: seq<Record>, u: seq<Record>, out: seq<Record>)
    requires TableFor(blob, known, t) && TableFor(blob, added, u)
    requires StrictlySorted(out) && MapOf(out) == MapOf(t) + MapOf(u)
    ensures TableFor(blob, known + added, out)
  {
    forall c | c in MapOf(out)
      ensures exists x :: x in known + added && Record(c, MapOf(out)[c]) in BlobRecords(blob(x))
    {
      var x :| x in (if c in MapOf(u) then added else known) && Record(c, MapOf(out)[c]) in BlobRecords(blob(x));
      assert x in known + added;
    }
  }

  /** The manifest, with the packs it lists, and the table. */
  datatype Cached = Cached(blobs: seq<Id>, table: seq<Record>, packs: set<(Id, nat)>)

  ghost predicate CacheFor(blob: Content, c: Cached) {
    TableFor(blob, c.blobs, c.table) && c.packs == PacksOf(blob, c.blobs)
  }

  function Blobs(stored: Option<Cached>): Option<seq<Id>> {
    if stored.Some? then Some(stored.value.blobs) else None
  }

  /** `load` merges into the manifest instead of rebuilding it. */
  predicate Incremental(blob: Content, known: Option<seq<Id>>, live: seq<Id>) {
    known.Some? && Covers(live, known.value) && !Replaces(blob, NotIn(live, known.value), known.value)
  }

  /** What `load` merges into the table it has. */
  function Merged(blob: Content, known: seq<Id>, live: seq<Id>): seq<Id> {
    Unsuperseded(blob, NotIn(live, known), NotIn(live, known))
  }

  /** What the table says after `load`. */
  ghost function NextMap(blob: Content, stored: Option<Cached>, live: seq<Id>): map<Id, Location> {
    if Incremental(blob, Blobs(stored), live)
    then MapOf(stored.value.table) + FirstOf(Pushed(blob, Merged(blob, stored.value.blobs, live)))
    else FirstOf(Pushed(blob, Unsuperseded(blob, live, live)))
  }

  class IndexCache {
    /** The manifest and the table on disk, when both can be read. */
    var stored: Option<Cached>

    ghost predicate Valid(blob: Content)
      reads this
    {
      stored.Some? ==> CacheFor(blob, stored.value)
    }

    /** One pass that gives up at the first blob that supersedes anything. */
    method OptimisticPass(blob: Content, live: seq<Id>)
      returns (done: Option<(seq<Record>, seq<Id>, set<(Id, nat)>)>)
      ensures done.Some? ==> done.value == (Pushed(blob, live), live, PacksOf(blob, live))
      ensures done.Some? ==> Unsuperseded(blob, live, live) == live
    {
      var records, kept, packs: set<(Id, nat)> := [], [], {};
      for i := 0 to |live|
        invariant records == Pushed(blob, live[..i]) && kept == live[..i] && packs == PacksOf(blob, live[..i])
        invariant forall x | x in live[..i] :: blob(x).supersedes == []
      {
        if blob(live[i]).supersedes != [] {
          return None;
        }
        PacksSnoc(blob, live[..i], live[i]);
        assert live[..i + 1] == live[..i] + [live[i]];
        assert live[..i + 1][..i] == live[..i];
        records, kept := records + BlobRecords(blob(live[i])), kept + [live[i]];
        packs := packs + BlobPacks(blob(live[i]));
      }
      assert live[..|live|] == live;
      NothingSuperseded(blob, live, live);
      done := Some((records, kept, packs));
    }

    /** Collects every `supersedes` first, then the blobs that none of them names. */
    method TwoPass(blob: Content, live: seq<Id>) returns (records: seq<Record>, kept: seq<Id>, packs: set<(Id, nat)>)
      ensures kept == Unsuperseded(blob, live, live) && records == Pushed(blob, kept) && packs == PacksOf(blob, kept)
    {
      records, kept, packs := [], [], {};
      for i := 0 to |live|
        invariant kept == Unsuperseded(blob, live[..i], live) && records == Pushed(blob, kept)
        invariant packs == PacksOf(blob, kept)
      {
        assert live[..i + 1][..i] == live[..i];
        if !SupersededBy(blob, live, live[i]) {
          PacksSnoc(blob, kept, live[i]);
          assert (kept + [live[i]])[..|kept|] == kept;
          records, kept := records + BlobRecords(blob(live[i])), kept + [live[i]];
          packs := packs + BlobPacks(blob(live[i]));
        }
      }
      assert live[..|live|] == live;
    }

    method Rebuild(blob: Content, live: seq<Id>)
      modifies this
      ensures Valid(blob) && stored.Some? && stored.value.blobs == Unsuperseded(blob, live, live)
      ensures MapOf(stored.value.table) == FirstOf(Pushed(blob, Unsuperseded(blob, live, live)))
      ensures Right(blob, live, MapOf(stored.value.table))
    {
      var records, kept, packs;
      var done := OptimisticPass(blob, live);
      if done.Some? {
        records, kept, packs := done.value.0, done.value.1, done.value.2;
      } else {
        records, kept, packs := TwoPass(blob, live);
      }
      BuiltTableFor(blob, kept);
      BuildTableMaps(records);
      RebuildIsRight(blob, live);
      stored := Some(Cached(kept, BuildTable(records), packs));
    }

    /** The table as it is, when the repository has nothing new. */
    lemma NothingNew(blob: Content, live: seq<Id>)
      requires stored.Some? && Covers(live, stored.value.blobs) && NotIn(live, stored.value.blobs) == []
      ensures MapOf(stored.value.table) == NextMap(blob, stored, live)
      ensures NextBlobs(blob, Blobs(stored), live) == stored.value.blobs
    {
      var none: map<Id, Location> := map[];
      assert MapOf(stored.value.table) + none == MapOf(stored.value.table);
    }

    /** Brings the cache up to date with the blobs that are in the repository now. */
    method Load(blob: Content, live: seq<Id>) returns (table: seq<Record>)
      requires Valid(blob)
      modifies this
      ensures Valid(blob) && stored.Some? && table == stored.value.table
      ensures stored.value.blobs == NextBlobs(blob, old(Blobs(stored)), live)
      ensures MapOf(table) == NextMap(blob, old(stored), live)
    {
      if stored.Some? && Covers(live, stored.value.blobs) {
        var known, t := stored.value.blobs, stored.value.table;
        var newIds := NotIn(live, known);
        if newIds == [] {
          NothingNew(blob, live);
          return t;
        }
        if Replaces(blob, newIds, known) {
          Rebuild(blob, live);
        } else {
          var added := Unsuperseded(blob, newIds, newIds);
          var u := BuildTable(Pushed(blob, added));
          BuiltTableFor(blob, added);
          BuildTableMaps(Pushed(blob, added));
          var out := MergeOldNew(t, u);
          MergedTableFor(blob, known, added, t, u, out);
          PacksJoin(blob, known, added);
          stored := Some(Cached(known + added, out, stored.value.packs + PacksOf(blob, added)));
        }
      } else {
        Rebuild(blob, live);
      }
      table := stored.value.table;
    }
  }

  lemma PacksJoin(blob: Content, xs: seq<Id>, ys: seq<Id>)
    ensures PacksOf(blob, xs + ys) == PacksOf(blob, xs) + PacksOf(blob, ys)
  {
    forall x ensures x in xs + ys <==> x in xs || x in ys {}
  }

  lemma PacksSnoc(blob: Content, xs: seq<Id>, x: Id)
    ensures PacksOf(blob, xs + [x]) == PacksOf(blob, xs) + BlobPacks(blob(x))
  {
    PacksJoin(blob, xs, [x]);
    assert x in [x];
  }

  lemma {:induction false} NothingSuperseded(blob: Content, xs: seq<Id>, ys: seq<Id>)
    requires forall x | x in ys :: blob(x).supersedes == []
    ensures Unsuperseded(blob, xs, ys) == xs
    decreases |xs|
  {
    if xs != [] {
      NothingSuperseded(blob, xs[..|xs| - 1], ys);
      assert xs == xs[..|xs| - 1] + [xs[|xs| - 1]];
    }
  }

  // ---------- when the cache is right ----------

  /** Some blob that readers use places the chunk `c` at `l`. */
  ghost predicate Given(blob: Content, live: seq<Id>, c: Id, l: Location) {
    exists x :: IsEffective(blob, live, x) && Record(c, l) in BlobRecords(blob(x))
  }

  /** The table says what the plain index knows: exactly the chunks of the blobs that nothing supersedes, each at a
      place one of those gives. */
  ghost predicate Right(blob: Content, live: seq<Id>, m: map<Id, Location>) {
    AllGiven(blob, live, m) && NoneMissing(blob, live, m)
  }

  ghost predicate AllGiven(blob: Content, live: seq<Id>, m: map<Id, Location>) {
    forall c | c in m :: Given(blob, live, c, m[c])
  }

  ghost predicate NoneMissing(blob: Content, live: seq<Id>, m: map<Id, Location>) {
    forall x, r | IsEffective(blob, live, x) && r in BlobRecords(blob(x)) :: r.id in m
  }

  /** What the new table keeps of the old one is given, too. */
  ghost predicate KeptGiven(blob: Content, live: seq<Id>, olds: map<Id, Location>, news: map<Id, Location>) {
    forall c | c in olds && c !in news :: Given(blob, live, c, olds[c])
  }

  /** What a list of blobs says of the chunks, the first place counting. */
  lemma PushedMap(blob: Content, ids: seq<Id>)
    ensures forall x, r | x in ids && r in BlobRecords(blob(x)) :: r.id in FirstOf(Pushed(blob, ids))
    ensures forall c | c in FirstOf(Pushed(blob, ids)) ::
              exists x :: x in ids && Record(c, FirstOf(Pushed(blob, ids))[c]) in BlobRecords(blob(x))
  {
    FirstOfMembers(Pushed(blob, ids));
    PushedMembers(blob, ids);
  }

  /** A rebuild is always right. */
  lemma RebuildIsRight(blob: Content, live: seq<Id>)
    ensures Right(blob, live, FirstOf(Pushed(blob, Unsuperseded(blob, live, live))))
  {
    PushedMap(blob, Unsuperseded(blob, live, live));
  }

  /** An incremental load never misses a chunk: all effective blobs are in the manifest or merged now. */
  lemma NothingMissed(blob: Content, c: Cached, live: seq<Id>)
    requires CacheFor(blob, c) && Incremental(blob, Some(c.blobs), live)
    ensures NoneMissing(blob, live, NextMap(blob, Some(c), live))
  {
    var added := Merged(blob, c.blobs, live);
    PushedMap(blob, added);
    forall x, r | IsEffective(blob, live, x) && r in BlobRecords(blob(x))
      ensures r.id in NextMap(blob, Some(c), live)
    {
      if x !in c.blobs {
        assert forall y | y in NotIn(live, c.blobs) :: y in live;
        assert x in added;
      }
    }
  }

  lemma GivenInBoth(blob: Content, live: seq<Id>, olds: map<Id, Location>, news: map<Id, Location>)
    ensures AllGiven(blob, live, olds + news) <==> AllGiven(blob, live, news) && KeptGiven(blob, live, olds, news)
  {
    hide Given;
    var m := olds + news;
    if AllGiven(blob, live, m) {
      forall c | c in news ensures Given(blob, live, c, news[c]) {
        assert c in m && m[c] == news[c];
      }
      forall c | c in olds && c !in news ensures Given(blob, live, c, olds[c]) {
        assert c in m && m[c] == olds[c];
      }
    }
  }

  /** Any load is right exactly when each chunk that it merges is first met at a place that an effective blob gives,
      and so is each chunk that it takes over from the old table; after a rebuild always. What `load` merges are the
      new blobs that no new blob supersedes. */
  lemma LoadIsRightIff(blob: Content, stored: Option<Cached>, live: seq<Id>)
    requires stored.Some? ==> CacheFor(blob, stored.value)
    ensures Right(blob, live, NextMap(blob, stored, live)) <==>
            (Incremental(blob, Blobs(stored), live) ==>
               var news := FirstOf(Pushed(blob, Merged(blob, stored.value.blobs, live)));
               var olds := MapOf(stored.value.table);
               AllGiven(blob, live, news) && KeptGiven(blob, live, olds, news))
  {
    hide AllGiven, KeptGiven, NoneMissing, Pushed, FirstOf, MapOf;
    if Incremental(blob, Blobs(stored), live) {
      NothingMissed(blob, stored.value, live);
      assert Some(stored.value) == stored;
      GivenInBoth(blob, live, MapOf(stored.value.table), FirstOf(Pushed(blob, Merged(blob, stored.value.blobs, live))));
    } else {
      RebuildIsRight(blob, live);
    }
  }

  /** No blob of the manifest supersedes another one of it. */
  ghost predicate Consistent(blob: Content, known: seq<Id>) {
    forall x | x in known :: !SupersededBy(blob, known, x)
  }

  /** The condition the code relies on without keeping it: no live blob outside the manifest is superseded by a blob in
      it. Under it every load is right, and leaves a manifest that is consistent for the next. */
  lemma LoadIsRight(blob: Content, stored: Option<Cached>, live: seq<Id>)
    requires stored.Some? ==> CacheFor(blob, stored.value) && Consistent(blob, stored.value.blobs)
    requires stored.Some? ==>
               forall x | x in live && x !in stored.value.blobs :: !SupersededBy(blob, stored.value.blobs, x)
    ensures Right(blob, live, NextMap(blob, stored, live))
    ensures Consistent(blob, NextBlobs(blob, Blobs(stored), live))
  {
    if Incremental(blob, Blobs(stored), live) {
      var known, added := stored.value.blobs, Merged(blob, stored.value.blobs, live);
      MergedAreEffective(blob, known, live);
      PushedMap(blob, added);
      NothingMissed(blob, stored.value, live);
      forall c | c in NextMap(blob, stored, live) ensures Given(blob, live, c, NextMap(blob, stored, live)[c]) {
      }
      NextIsConsistent(blob, known, live);
    } else {
      RebuildIsRight(blob, live);
    }
  }

  lemma MergedAreEffective(blob: Content, known: seq<Id>, live: seq<Id>)
    requires Incremental(blob, Some(known), live) && Consistent(blob, known)
    requires forall x | x in live && x !in known :: !SupersededBy(blob, known, x)
    ensures forall x | x in known || x in Merged(blob, known, live) :: IsEffective(blob, live, x)
  {
    assert forall y | y in live :: y in known || y in NotIn(live, known);
  }

  lemma NextIsConsistent(blob: Content, known: seq<Id>, live: seq<Id>)
    requires Incremental(blob, Some(known), live) && Consistent(blob, known)
    requires forall x | x in live && x !in known :: !SupersededBy(blob, known, x)
    ensures Consistent(blob, NextBlobs(blob, Some(known), live))
  {
    MergedAreEffective(blob, known, live);
    var next := NextBlobs(blob, Some(known), live);
    assert forall x | x in next :: x in known || x in Merged(blob, known, live);
    assert forall y | y in next :: y in live;
  }

  /** The chunks of a right table are those of the plain index, which folds the packs of all effective blobs. */
  lemma RightIsPlainIndex(blob: Content, live: seq<Id>, m: map<Id, Location>, ps: seq<IndexPack>, c: Id)
    requires Right(blob, live, m)
    requires forall p :: p in ps <==> exists x :: IsEffective(blob, live, x) && p in blob(x).packs
    ensures c in m <==> c in FoldPacks(ps, {})
  {
    AbsorbIsCanonical(Flatten(ps), {}, c);
    FlattenMembers(ps);
    if c in m {
      var x :| IsEffective(blob, live, x) && Record(c, m[c]) in BlobRecords(blob(x));
      FlattenMembers(blob(x).packs);
      var p :| p in blob(x).packs && Record(c, m[c]) in PackRecords(p);
      assert p in ps && m[c].pack in Holders(Flatten(ps), {}, c);
    }
    if c in FoldPacks(ps, {}) {
      var r := Record(c, FoldPacks(ps, {})[c]);
      var p :| p in ps && r in PackRecords(p);
      var x :| IsEffective(blob, live, x) && p in blob(x).packs;
      FlattenMembers(blob(x).packs);
      assert r in BlobRecords(blob(x));
    }
  }

  // ---------- the second load ----------

  /** What a second load takes for new: the live blobs that the first one left out as superseded. */
  lemma SecondIsIncremental(blob: Content, live: seq<Id>)
    ensures var first := Unsuperseded(blob, live, live);
            && Incremental(blob, Some(first), live)
            && (forall x :: x in NotIn(live, first) <==> x in live && SupersededBy(blob, live, x))
  {
    var first := Unsuperseded(blob, live, live);
    var added := NotIn(live, first);
    assert forall x | SupersededBy(blob, added, x) :: SupersededBy(blob, live, x);
  }

  /** A second load from an unchanged repository is right exactly when every chunk of the blobs it merges back is first
      met there at a place that an effective blob gives as well. The blobs it merges back are the superseded ones that
      no superseded blob supersedes. */
  lemma SecondLoadIsRightIff(blob: Content, stored: Cached, live: seq<Id>)
    requires CacheFor(blob, stored) && stored.blobs == Unsuperseded(blob, live, live)
    ensures var back := FirstOf(Pushed(blob, Merged(blob, stored.blobs, live)));
            Right(blob, live, NextMap(blob, Some(stored), live)) <==> AllGiven(blob, live, back)
  {
    hide Given;
    SecondIsIncremental(blob, live);
    LoadIsRightIff(blob, Some(stored), live);
    forall c | c in MapOf(stored.table) ensures Given(blob, live, c, MapOf(stored.table)[c]) {
      var x :| x in stored.blobs && Record(c, MapOf(stored.table)[c]) in BlobRecords(blob(x));
      GivenBy(blob, live, x, c, MapOf(stored.table)[c]);
    }
  }

  lemma GivenBy(blob: Content, live: seq<Id>, x: Id, c: Id, l: Location)
    requires IsEffective(blob, live, x) && Record(c, l) in BlobRecords(blob(x))
    ensures Given(blob, live, c, l)
  {
  }

  // ---------- the manifest alone ----------

  /** The manifest names exactly the blobs that readers use. */
  ghost predicate Agrees(blob: Content, ids: seq<Id>, live: seq<Id>) {
    forall x :: x in ids <==> IsEffective(blob, live, x)
  }

  /** After an incremental load the manifest is the list of effective blobs exactly when every live blob that a merged
      blob supersedes is new and is superseded by a new blob as well: the load looks at the new blobs' lists only. */
  lemma IncrementalAgreesIff(blob: Content, known: seq<Id>, live: seq<Id>)
    requires Incremental(blob, Some(known), live)
    ensures Agrees(blob, NextBlobs(blob, Some(known), live), live) <==>
            forall x | x in live && SupersededBy(blob, known, x) ::
              x !in known && SupersededBy(blob, NotIn(live, known), x)
  {
    var added := NotIn(live, known);
    var next := NextBlobs(blob, Some(known), live);
    assert forall x :: x in next <==> x in known || (x in added && !SupersededBy(blob, added, x)) by {
      assert added == [] ==> next == known;
    }
    forall x ensures SupersededBy(blob, live, x) <==> SupersededBy(blob, known, x) || SupersededBy(blob, added, x) {
      assert forall y | y in live :: y in known || y in added;
    }
  }

  /** Blobs list only blobs written before them. */
  ghost predicate WrittenInOrder(blob: Content, rank: Id -> nat) {
    forall x: Id, y | y in blob(x).supersedes :: rank(y) < rank(x)
  }

  lemma {:induction false} SomeSupersededIsLatest(blob: Content, rank: Id -> nat, xs: seq<Id>) returns (z: Id)
    requires xs != [] && WrittenInOrder(blob, rank)
    ensures z in xs && !SupersededBy(blob, xs, z)
    decreases |xs|
  {
    z := xs[0];
    for i := 1 to |xs|
      invariant z in xs && forall j | 0 <= j < i :: rank(xs[j]) <= rank(z)
    {
      if rank(xs[i]) > rank(z) {
        z := xs[i];
      }
    }
  }

  /** Loading a second time from an unchanged repository leaves the right manifest exactly when no live blob is
      superseded: otherwise the latest of the superseded blobs is merged back. */
  lemma SecondLoadAgreesIff(blob: Content, rank: Id -> nat, live: seq<Id>)
    requires WrittenInOrder(blob, rank)
    ensures var first := NextBlobs(blob, None, live);
            && Agrees(blob, first, live)
            && (Agrees(blob, NextBlobs(blob, Some(first), live), live) <==>
                forall x | x in live :: !SupersededBy(blob, live, x))
  {
    var first := NextBlobs(blob, None, live);
    var added := NotIn(live, first);
    SecondIsIncremental(blob, live);
    var second := NextBlobs(blob, Some(first), live);
    if added != [] {
      var z := SomeSupersededIsLatest(blob, rank, added);
      assert z in second && SupersededBy(blob, live, z);
    }
  }

  // ---------- a table that serves a superseded blob ----------

  /** The chunk 7 was in pack 1, which blob 1 lists. It was moved to pack 2, and blob 2 replaced blob 1. */
  function Moved(x: Id): IndexBlob {
    if x == 1 then IndexBlob([IndexPack(1, 100, [PackEntry(7, 5, 10, 10)])], [])
    else if x == 2 then IndexBlob([IndexPack(2, 100, [PackEntry(7, 5, 10, 10)])], [1])
    else IndexBlob([], [])
  }

  /** Two loads from the same repository, which holds both blobs: the first says pack 2, the second pack 1, which only
      the superseded blob lists. */
  lemma SecondLoadGoesBack(stored: Cached)
    requires CacheFor(Moved, stored) && stored.blobs == NextBlobs(Moved, None, [1, 2])
    ensures NextMap(Moved, None, [1, 2]) == map[7 := Location(2, 5, 10, 10)]
    ensures 7 in NextMap(Moved, Some(stored), [1, 2])
    ensures NextMap(Moved, Some(stored), [1, 2])[7] == Location(1, 5, 10, 10)
    ensures !Right(Moved, [1, 2], NextMap(Moved, Some(stored), [1, 2]))
  {
    hide Moved, FirstOf, Pushed, CacheFor;
    OnlyTwo();
    NotInTwo();
    OneStays();
    PushedOne(1);
    PushedOne(2);
    SecondIsIncremental(Moved, [1, 2]);
    OneIsNotGiven();
  }

  lemma OneIsNotGiven()
    ensures !Given(Moved, [1, 2], 7, Location(1, 5, 10, 10))
  {
    hide FirstOf, Pushed, Flatten;
    assert 2 in [1, 2] && 1 in Moved(2).supersedes;
    RecordsOf(2);
  }

  lemma RecordsOf(x: Id)
    requires x == 1 || x == 2
    ensures BlobRecords(Moved(x)) == [Record(7, Location(x, 5, 10, 10))]
  {
    var ps := Moved(x).packs;
    assert ps[..|ps| - 1] == [];
    assert Flatten([]) == [];
  }

  lemma PushedOne(x: Id)
    requires x == 1 || x == 2
    ensures FirstOf(Pushed(Moved, [x])) == map[7 := Location(x, 5, 10, 10)]
  {
    RecordsOf(x);
    assert [x][..0] == [];
    assert Pushed(Moved, [x]) == [Record(7, Location(x, 5, 10, 10))];
    assert [Record(7, Location(x, 5, 10, 10))][..0] == [];
  }

  lemma OnlyTwo()
    ensures Unsuperseded(Moved, [1, 2], [1, 2]) == [2]
  {
    assert [1, 2][..1] == [1] && [1][..0] == [];
    assert 2 in [1, 2] && 1 in Moved(2).supersedes;
    assert Unsuperseded(Moved, [], [1, 2]) == [];
    assert Unsuperseded(Moved, [1], [1, 2]) == [];
    assert !SupersededBy(Moved, [1, 2], 2);
  }

  lemma OneStays()
    ensures Unsuperseded(Moved, [1], [1]) == [1]
  {
    assert [1][..0] == [];
    assert Unsuperseded(Moved, [], [1]) == [];
  }

  lemma NotInTwo()
    ensures NotIn([1, 2], [2]) == [1]
  {
    assert [1, 2][..1] == [1] && [1][..0] == [];
    assert NotIn([], [2]) == [];
    assert NotIn([1], [2]) == [1];
  }
}
