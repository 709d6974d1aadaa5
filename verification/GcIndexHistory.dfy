/** What is true of the index in every run, whatever the clients do and however long they take: nothing here
  rests on a promise of the environment.

  A blob may replace others only as one request among many: between the listing that says which blobs are there
  and the write of the blob that replaces them, backups, other rebuilds and prune go on. That a replaced blob
  stays replaced needs the listings to be closed: with a blob they contain all stored blobs it replaces.
 */
module GcIndexHistory {
  import opened Objects
  import opened GcMachine
  import opened GcFrames

  /** Sealed objects are written once; a blob replaces only blobs written before it. */
  ghost predicate History(s: State) {
    && (forall o | o in s.objs && !o.TreeObj? :: o in s.used)
    && (forall o | o in s.marks && !o.TreeObj? :: o in s.used)
    && (forall b, b' | IndexObj(b) in s.used && b' in b.supersedes :: IndexObj(b') in s.used)
  }

  ghost predicate Names(s: State) {
    forall p, q | PackObj(p) in s.used && PackObj(q) in s.used && p.name == q.name :: p == q
  }

  /** A stored blob that is not effective is replaced by one that is. */
  ghost predicate Supersession(objs: map<Obj, Time>) {
    forall b | IndexObj(b) in objs && !Effective(objs, b) ::
      exists e :: Effective(objs, e) && b in e.supersedes
  }

  /** The listing `bs` of blobs contains, with a blob, whatever that blob replaces and is still stored. */
  ghost predicate ReplacedTogether(objs: map<Obj, Time>, bs: set<Blob>) {
    forall e, b | e in bs && b in e.supersedes && IndexObj(b) in objs :: b in bs
  }

  ghost predicate WrittenBlobs(s: State, bs: set<Blob>) {
    forall b | b in bs :: IndexObj(b) in s.used
  }

  /** A listing that some client holds and may still write into a new blob. */
  ghost predicate Listing(s: State, bs: set<Blob>) {
    ReplacedTogether(s.objs, bs) && WrittenBlobs(s, bs)
  }

  ghost predicate Listings(s: State) {
    forall k | k in s.rebuilds :: Listing(s, s.rebuilds[k].existing)
  }

  ghost predicate SealedIn(s: State, os: set<Obj>) {
    forall o | o in os && !o.TreeObj? :: o in s.used
  }

  /** Sealed objects that prune may delete; the blobs among them are all replaced. */
  ghost predicate Condemnable(s: State, os: set<Obj>) {
    SealedIn(s, os) && forall b | IndexObj(b) in os :: !Effective(s.objs, b)
  }

  /** A prune that has not decided yet: what it has not read is not marked. */
  ghost predicate Reading(s: State, bs: set<Blob>) {
    && Listing(s, bs)
    && (forall b | b in bs :: IndexObj(b) in s.objs)
    && (forall b | IndexObj(b) in s.marks && IndexObj(b) in s.objs :: b in bs)
  }

  ghost predicate PruneListing(s: State) {
    match s.prune
    case Idle => true
    case Loaded(_, bs) => Reading(s, bs)
    case Walked(_, bs, _, _, listed, _) => Reading(s, bs) && SealedIn(s, listed.Keys)
    case Running(plan, stage) =>
      && SealedIn(s, plan.toMark)
      && match stage {
        case Repacking(_) => Listing(s, plan.blobs) && Condemnable(s, plan.toDelete.Keys)
        case Deleting(pending, cleared, _, _) => Condemnable(s, pending) && Condemnable(s, cleared)
        case Marking(mark) => SealedIn(s, mark)
        case _ => true
      }
  }

  ghost predicate IndexInv(s: State) {
    History(s) && Names(s) && Supersession(s.objs) && Listings(s) && PruneListing(s)
  }

  // ---------- the index under writes and deletes ----------

  lemma SameBlobs(objs: map<Obj, Time>, objs': map<Obj, Time>)
    requires forall b :: IndexObj(b) in objs <==> IndexObj(b) in objs'
    ensures forall b :: Effective(objs, b) <==> Effective(objs', b)
    ensures forall p :: Listed(objs, p) <==> Listed(objs', p)
    ensures Supersession(objs) ==> Supersession(objs')
  {
    forall b ensures Effective(objs, b) <==> Effective(objs', b) {}
  }

  /** A new blob replaces exactly the blobs it says it replaces. */
  lemma AddBlob(s: State, n: Blob, objs': map<Obj, Time>)
    requires History(s) && Supersession(s.objs) && Listing(s, n.supersedes) && IndexObj(n) !in s.used
    requires objs' == s.objs[IndexObj(n) := s.now]
    ensures forall b :: Effective(objs', b) <==> b == n || (Effective(s.objs, b) && b !in n.supersedes)
    ensures Supersession(objs')
  {
    assert n !in n.supersedes;
    forall b ensures Effective(objs', b) <==> b == n || (Effective(s.objs, b) && b !in n.supersedes) {
      assert IndexObj(n) in objs';
      assert forall b' | IndexObj(b') in s.objs :: IndexObj(b') in s.used;
    }
    forall b | IndexObj(b) in objs' && !Effective(objs', b)
      ensures exists e :: Effective(objs', e) && b in e.supersedes
    {
      assert Effective(objs', n);
      if b !in n.supersedes {
        var e :| Effective(s.objs, e) && b in e.supersedes;
        assert Effective(objs', e);
      }
    }
  }

  /** Deleting a replaced blob brings no older blob back. */
  lemma DropReplacedBlob(objs: map<Obj, Time>, b0: Blob)
    requires Supersession(objs) && !Effective(objs, b0)
    ensures forall b :: Effective(objs - {IndexObj(b0)}, b) <==> Effective(objs, b)
    ensures forall p :: Listed(objs - {IndexObj(b0)}, p) <==> Listed(objs, p)
    ensures Supersession(objs - {IndexObj(b0)})
  {
    var objs' := objs - {IndexObj(b0)};
    forall b ensures Effective(objs', b) <==> Effective(objs, b) {
      if IndexObj(b) in objs && !Effective(objs, b) {
        var e :| Effective(objs, e) && b in e.supersedes;
        assert IndexObj(e) in objs';
      }
    }
    forall b | IndexObj(b) in objs' && !Effective(objs', b)
      ensures exists e :: Effective(objs', e) && b in e.supersedes
    {
      var e :| Effective(objs, e) && b in e.supersedes;
      assert Effective(objs', e);
    }
  }

  lemma DropOther(objs: map<Obj, Time>, o: Obj)
    requires Supersession(objs) && (o.IndexObj? ==> !Effective(objs, o.blob))
    ensures forall b :: Effective(objs - {o}, b) <==> Effective(objs, b)
    ensures forall p :: Listed(objs - {o}, p) <==> Listed(objs, p)
    ensures Supersession(objs - {o})
  {
    if o.IndexObj? {
      DropReplacedBlob(objs, o.blob);
    } else {
      SameBlobs(objs, objs - {o});
    }
  }

  // ---------- frames ----------

  /** No index blob appeared or went; nothing was marked that is not sealed. */
  ghost predicate IndexUntouched(s: State, s': State) {
    && s.used <= s'.used
    && (forall b :: IndexObj(b) in s.used <==> IndexObj(b) in s'.used)
    && (forall b :: IndexObj(b) in s.objs <==> IndexObj(b) in s'.objs)
    && SealedIn(s', s'.objs.Keys) && SealedIn(s', s'.marks.Keys)
  }

  lemma ListingKept(s: State, s': State, bs: set<Blob>)
    requires Listing(s, bs) && History(s) && s.used <= s'.used
    requires forall b | IndexObj(b) in s'.objs :: IndexObj(b) in s.objs || IndexObj(b) !in s.used
    ensures Listing(s', bs)
  {
    forall e, b | e in bs && b in e.supersedes && IndexObj(b) in s'.objs ensures b in bs {
      assert IndexObj(e) in s.used;
      assert IndexObj(b) in s.used;
    }
  }

  lemma ListingsKept(s: State, s': State)
    requires Listings(s) && History(s) && s.used <= s'.used
    requires forall b | IndexObj(b) in s'.objs :: IndexObj(b) in s.objs || IndexObj(b) !in s.used
    requires forall k | k in s'.rebuilds :: k in s.rebuilds && s'.rebuilds[k].existing == s.rebuilds[k].existing
    ensures Listings(s')
  {
    forall k | k in s'.rebuilds ensures Listing(s', s'.rebuilds[k].existing) {
      ListingKept(s, s', s.rebuilds[k].existing);
    }
  }

  lemma HistoryKept(s: State, s': State)
    requires History(s) && Supersession(s.objs) && IndexUntouched(s, s')
    ensures History(s') && Supersession(s'.objs)
  {
    SameBlobs(s.objs, s'.objs);
  }

  /** Prune stands where it stood. */
  lemma PruneListingKept(s: State, s': State)
    requires PruneListing(s) && History(s) && Supersession(s.objs) && IndexUntouched(s, s')
    requires s'.prune == s.prune && s'.marks == s.marks
    ensures PruneListing(s')
  {
    SameBlobs(s.objs, s'.objs);
    match s.prune
    case Loaded(_, bs) => ListingKept(s, s', bs);
    case Walked(_, bs, _, _, _, _) => ListingKept(s, s', bs);
    case Running(plan, stage) =>
      if stage.Repacking? { ListingKept(s, s', plan.blobs); }
    case Idle =>
  }

  // ---------- backups and rebuilds ----------

  lemma BackupFrame(cfg: Config, s: State, a: Action)
    requires History(s) && OfBackup(a) && EnabledBackup(cfg, s, a) && !a.BFinish?
    ensures var s' := ApplyBackup(cfg, s, a);
            && IndexUntouched(s, s') && s'.prune == s.prune && s'.marks == s.marks && s'.rebuilds == s.rebuilds
            && (s'.used == s.used || (a.BPutPack? && NewName(s, a.p) && s'.used == s.used + {PackObj(a.p)}))
  {
    hide EnabledBackup, ApplyBackup, NewName, BackupEffect;
    BackupActs(cfg, s, a);
    BackupLeaves(s, ApplyBackup(cfg, s, a), a);
  }

  lemma RebuildFrame(s: State, a: Action)
    requires History(s) && OfRebuild(a) && EnabledRebuild(s, a) && !a.RWrite?
    ensures var s' := ApplyRebuild(s, a);
            && IndexUntouched(s, s') && s'.prune == s.prune && s'.marks == s.marks && s'.used == s.used
            && (forall k | k in s'.rebuilds ::
                  || (k in s.rebuilds && s'.rebuilds[k].existing == s.rebuilds[k].existing)
                  || s'.rebuilds[k].existing == Blobs(s'.objs))
  {
  }

  /** A client, not prune, does something other than write an index blob. */
  lemma ClientFrame(cfg: Config, s: State, a: Action)
    requires History(s) && Enabled(cfg, s, a) && !OfPrune(a) && !a.BFinish? && !a.RWrite?
    ensures var s' := Apply(cfg, s, a);
            && IndexUntouched(s, s') && s'.prune == s.prune && s'.marks == s.marks
            && (s'.used == s.used || exists p :: NewName(s, p) && s'.used == s.used + {PackObj(p)})
            && (forall k | k in s'.rebuilds ::
                  || (k in s.rebuilds && s'.rebuilds[k].existing == s.rebuilds[k].existing)
                  || s'.rebuilds[k].existing == Blobs(s'.objs))
  {
    hide EnabledBackup, ApplyBackup, EnabledRebuild, ApplyRebuild, NewName;
    if OfBackup(a) {
      BackupFrame(cfg, s, a);
    } else if OfRebuild(a) {
      RebuildFrame(s, a);
    }
  }

  lemma NamesKept(s: State, s': State)
    requires Names(s)
    requires (forall p | PackObj(p) in s'.used :: PackObj(p) in s.used)
             || exists p :: NewName(s, p) && s'.used == s.used + {PackObj(p)}
    ensures Names(s')
  {
  }

  lemma AllIsClosed(s: State)
    requires History(s)
    ensures Listing(s, Blobs(s.objs))
  {
  }

  lemma ClientKeepsIndex(cfg: Config, s: State, a: Action)
    requires IndexInv(s) && Enabled(cfg, s, a) && !OfPrune(a) && !a.BFinish? && !a.RWrite?
    ensures IndexInv(Apply(cfg, s, a)) && s.used <= Apply(cfg, s, a).used
    ensures forall b :: Effective(Apply(cfg, s, a).objs, b) <==> Effective(s.objs, b)
  {
    hide Enabled, Apply, Names, Supersession, PruneListing, Listing, NewName;
    var s' := Apply(cfg, s, a);
    ClientFrame(cfg, s, a);
    HistoryKept(s, s');
    NamesKept(s, s');
    PruneListingKept(s, s');
    forall k | k in s'.rebuilds ensures Listing(s', s'.rebuilds[k].existing) {
      if k in s.rebuilds && s'.rebuilds[k].existing == s.rebuilds[k].existing {
        ListingKept(s, s', s.rebuilds[k].existing);
      } else {
        AllIsClosed(s');
      }
    }
    SameBlobs(s.objs, s'.objs);
  }

  // ---------- a client writes an index blob ----------

  /** A new blob is in the store; prune did not write it. */
  ghost predicate BlobAppears(s: State, s': State, n: Blob) {
    && IndexObj(n) !in s.used && Listing(s, n.supersedes)
    && s'.objs == s.objs[IndexObj(n) := s.now] && s'.used == s.used + {IndexObj(n)} && s'.now == s.now
    && s'.marks == s.marks && s'.prune == s.prune
    && forall k | k in s'.rebuilds :: k in s.rebuilds && s'.rebuilds[k] == s.rebuilds[k]
  }

  lemma BlobKeepsPrune(s: State, s': State, n: Blob)
    requires IndexInv(s) && BlobAppears(s, s', n)
    requires forall b :: Effective(s'.objs, b) <==> b == n || (Effective(s.objs, b) && b !in n.supersedes)
    ensures PruneListing(s')
  {
    hide Supersession, Effective;
    match s.prune
    case Loaded(_, bs) => ListingKept(s, s', bs);
    case Walked(_, bs, _, _, _, _) => ListingKept(s, s', bs);
    case Running(plan, stage) =>
      if stage.Repacking? { ListingKept(s, s', plan.blobs); }
    case Idle =>
  }

  lemma BlobKeepsIndex(s: State, s': State, n: Blob)
    requires IndexInv(s) && BlobAppears(s, s', n)
    ensures IndexInv(s')
    ensures forall b :: Effective(s'.objs, b) <==> b == n || (Effective(s.objs, b) && b !in n.supersedes)
  {
    hide PruneListing, Supersession, Effective, ReplacedTogether;
    AddBlob(s, n, s'.objs);
    BlobKeepsPrune(s, s', n);
    NamesKept(s, s');
    ListingsKept(s, s');
  }

  // ---------- prune ----------

  /** A step of prune that leaves the blobs alone, and marks only sealed objects. */
  ghost predicate PruneMoved(s: State, s': State) {
    IndexUntouched(s, s') && s'.rebuilds == s.rebuilds
    && ((forall p | PackObj(p) in s'.used :: PackObj(p) in s.used)
        || exists p :: NewName(s, p) && s'.used == s.used + {PackObj(p)})
  }

  lemma MovedKeepsIndex(s: State, s': State)
    requires IndexInv(s) && PruneMoved(s, s') && PruneListing(s')
    ensures IndexInv(s') && s.used <= s'.used
    ensures forall b :: Effective(s'.objs, b) <==> Effective(s.objs, b)
  {
    hide PruneListing, Supersession, Listing, Effective, NewName;
    HistoryKept(s, s');
    NamesKept(s, s');
    ListingsKept(s, s');
    SameBlobs(s.objs, s'.objs);
  }

  lemma LoadKeeps(cfg: Config, s: State, a: Action)
    requires IndexInv(s) && OfPrune(a) && EnabledPrune(cfg, s, a) && (a.PLoad? || a.PWalk? || a.PList?)
    ensures var s' := ApplyPrune(cfg, s, a); PruneMoved(s, s') && PruneListing(s')
  {
    if a.PLoad? { AllIsClosed(s); }
  }

  lemma DecideKeeps(cfg: Config, s: State, blocked: set<Obj>, repack: set<Pack>)
    requires IndexInv(s) && EnabledPrune(cfg, s, PDecide(blocked, repack))
    ensures var s' := ApplyPrune(cfg, s, PDecide(blocked, repack)); PruneMoved(s, s') && PruneListing(s')
  {
    hide Needed, Supersession, NewName;
    var plan := Decide(cfg, s, blocked, repack);
    forall b | IndexObj(b) in plan.toDelete.Keys ensures !Effective(s.objs, b) {
      assert IndexObj(b) in s.marks && IndexObj(b) in s.prune.listed;
    }
  }

  lemma RepackKeeps(cfg: Config, s: State, a: Action)
    requires IndexInv(s) && OfPrune(a) && EnabledPrune(cfg, s, a) && (a.PPutPack? || a.PKeepIndex?)
    ensures var s' := ApplyPrune(cfg, s, a); PruneMoved(s, s') && PruneListing(s')
  {
    hide Repacked, NeedsRewrite, Supersession, Names, Listings;
    var s' := ApplyPrune(cfg, s, a);
    assert IndexUntouched(s, s');
    SameBlobs(s.objs, s'.objs);
    if a.PPutPack? {
      ListingKept(s, s', s.prune.plan.blobs);
      assert NewName(s, a.p) && s'.used == s.used + {PackObj(a.p)};
    }
  }

  /** Objects as before; the marks may have changed. */
  lemma SameObjects(s: State, s': State)
    requires History(s) && s'.objs == s.objs && s'.used == s.used && s'.rebuilds == s.rebuilds
    requires SealedIn(s, s'.marks.Keys)
    ensures PruneMoved(s, s')
  {
  }

  lemma CheckKeeps(cfg: Config, s: State, a: Action)
    requires History(s) && PruneListing(s) && OfPrune(a) && EnabledPrune(cfg, s, a)
    requires a.PCheck?
    ensures var s' := ApplyPrune(cfg, s, a); PruneMoved(s, s') && PruneListing(s')
  {
    hide Evidence, Effective, PruneMoved, History, Listing;
    var s' := ApplyPrune(cfg, s, a);
    MarksAreSealed(s);
    SameObjects(s, s');
  }

  lemma SkipKeeps(cfg: Config, s: State, a: Action)
    requires History(s) && PruneListing(s) && OfPrune(a) && EnabledPrune(cfg, s, a)
    requires a.PSkip? || a.PDeleteTouch? || a.PStop?
    ensures var s' := ApplyPrune(cfg, s, a); PruneMoved(s, s') && PruneListing(s')
  {
    hide Evidence, Effective, PruneMoved, History, Listing;
    var s' := ApplyPrune(cfg, s, a);
    MarksAreSealed(s);
    SameObjects(s, s');
  }

  lemma MarksAreSealed(s: State)
    requires History(s)
    ensures SealedIn(s, s.marks.Keys)
  {
  }

  lemma MarkingKeeps(cfg: Config, s: State, a: Action)
    requires History(s) && PruneListing(s) && OfPrune(a) && EnabledPrune(cfg, s, a)
    requires a.PUnmark? || a.PMark?
    ensures var s' := ApplyPrune(cfg, s, a); PruneMoved(s, s') && PruneListing(s')
  {
    hide Effective, PruneMoved, History, Listing;
    var s' := ApplyPrune(cfg, s, a);
    MarksAreSealed(s);
    assert SealedIn(s, s'.marks.Keys);
    SameObjects(s, s');
  }

  lemma SweepingKeeps(cfg: Config, s: State, a: Action)
    requires History(s) && PruneListing(s) && OfPrune(a) && EnabledPrune(cfg, s, a)
    requires a.PFindOrphan? || a.PSweep?
    ensures var s' := ApplyPrune(cfg, s, a); PruneMoved(s, s') && PruneListing(s')
  {
    hide Effective, PruneMoved, History, Listing;
    var s' := ApplyPrune(cfg, s, a);
    MarksAreSealed(s);
    SameObjects(s, s');
  }

  lemma NextKeeps(cfg: Config, s: State, a: Action)
    requires History(s) && PruneListing(s) && OfPrune(a) && EnabledPrune(cfg, s, a)
    requires a.PNext?
    ensures var s' := ApplyPrune(cfg, s, a); PruneMoved(s, s') && PruneListing(s')
  {
    hide Effective, PruneMoved, History, Listing;
    var s' := ApplyPrune(cfg, s, a);
    MarksAreSealed(s);
    SameObjects(s, s');
  }

  lemma WriteIndexKeeps(cfg: Config, s: State, nonce: nat, failed: set<Pack>)
    requires IndexInv(s) && EnabledPrune(cfg, s, PWriteIndex(nonce, failed))
    ensures var s' := ApplyPrune(cfg, s, PWriteIndex(nonce, failed));
            && IndexInv(s') && s.used <= s'.used
            && (forall b :: Effective(s'.objs, b) && IndexObj(b) in s.used ==> Effective(s.objs, b))
  {
    hide Repacked, NeedsRewrite, Supersession, Effective, ReplacedTogether;
    var s' := ApplyPrune(cfg, s, PWriteIndex(nonce, failed));
    AddBlob(s, NewIndex(s.prune.plan, s.prune.stage.newPacks, nonce), s'.objs);
    NamesKept(s, s');
    ListingsKept(s, s');
  }

  lemma DeleteKeeps(cfg: Config, s: State, o: Obj)
    requires IndexInv(s) && EnabledPrune(cfg, s, PDelete(o))
    ensures var s' := ApplyPrune(cfg, s, PDelete(o));
            && IndexInv(s') && s.used <= s'.used
            && (forall b :: Effective(s'.objs, b) <==> Effective(s.objs, b))
  {
    hide Supersession, Effective, ReplacedTogether;
    var s' := ApplyPrune(cfg, s, PDelete(o));
    DropOther(s.objs, o);
    NamesKept(s, s');
    ListingsKept(s, s');
  }

  lemma PruneKeepsIndex(cfg: Config, s: State, a: Action)
    requires IndexInv(s) && OfPrune(a) && EnabledPrune(cfg, s, a)
    ensures var s' := ApplyPrune(cfg, s, a);
            && IndexInv(s') && s.used <= s'.used
            && (forall b :: Effective(s'.objs, b) && IndexObj(b) in s.used ==> Effective(s.objs, b))
  {
    hide History, Names, Supersession, Listings, EnabledPrune, ApplyPrune, PruneMoved, PruneListing, Effective;
    if a.PWriteIndex? {
      WriteIndexKeeps(cfg, s, a.nonce, a.failed);
    } else if a.PDelete? {
      DeleteKeeps(cfg, s, a.o);
    } else {
      if a.PLoad? || a.PWalk? || a.PList? {
        LoadKeeps(cfg, s, a);
      } else if a.PDecide? {
        DecideKeeps(cfg, s, a.blocked, a.repack);
      } else if a.PPutPack? || a.PKeepIndex? {
        RepackKeeps(cfg, s, a);
      } else if a.PCheck? {
        CheckKeeps(cfg, s, a);
      } else if a.PSkip? || a.PDeleteTouch? || a.PStop? {
        SkipKeeps(cfg, s, a);
      } else if a.PUnmark? || a.PMark? {
        MarkingKeeps(cfg, s, a);
      } else if a.PFindOrphan? || a.PSweep? {
        SweepingKeeps(cfg, s, a);
      } else {
        NextKeeps(cfg, s, a);
      }
      MovedKeepsIndex(s, ApplyPrune(cfg, s, a));
    }
  }

  lemma FinishKeepsIndex(cfg: Config, s: State, k: nat, nonce: nat)
    requires IndexInv(s) && EnabledBackup(cfg, s, BFinish(k, nonce))
    ensures var s' := ApplyBackup(cfg, s, BFinish(k, nonce));
            && IndexInv(s') && s.used <= s'.used
            && (forall b :: Effective(s'.objs, b) && IndexObj(b) in s.used ==> Effective(s.objs, b))
  {
    hide IndexInv, Effective;
    var s' := ApplyBackup(cfg, s, BFinish(k, nonce));
    if s.backups[k].own != {} {
      BlobKeepsIndex(s, s', Blob(nonce, s.backups[k].own, {}));
    } else {
      MemoryKeepsIndex(s, s');
    }
  }

  lemma MemoryKeepsIndex(s: State, s': State)
    requires IndexInv(s) && s' == s.(backups := s'.backups)
    ensures IndexInv(s')
  {
  }

  lemma RebuildKeepsIndex(s: State, k: nat, nonce: nat)
    requires IndexInv(s) && EnabledRebuild(s, RWrite(k, nonce))
    ensures var s' := ApplyRebuild(s, RWrite(k, nonce));
            && IndexInv(s') && s.used <= s'.used
            && (forall b :: Effective(s'.objs, b) && IndexObj(b) in s.used ==> Effective(s.objs, b))
  {
    hide PruneListing, Supersession, Effective, ReplacedTogether;
    BlobKeepsIndex(s, ApplyRebuild(s, RWrite(k, nonce)), Rebuilt(s.rebuilds[k], nonce));
  }

  /** Any step of anybody: the index history holds on, and no written blob becomes effective that was not. */
  lemma StepKeepsIndex(cfg: Config, s: State, a: Action)
    requires IndexInv(s) && Enabled(cfg, s, a)
    ensures var s' := Apply(cfg, s, a);
            && IndexInv(s') && s.used <= s'.used
            && (forall b :: Effective(s'.objs, b) && IndexObj(b) in s.used ==> Effective(s.objs, b))
  {
    hide IndexInv, Effective, EnabledBackup, EnabledRebuild, EnabledPrune, ApplyBackup, ApplyRebuild, ApplyPrune;
    if OfPrune(a) {
      PruneKeepsIndex(cfg, s, a);
    } else if a.BFinish? {
      FinishKeepsIndex(cfg, s, a.k, a.nonce);
    } else if a.RWrite? {
      RebuildKeepsIndex(s, a.k, a.nonce);
    } else {
      ClientKeepsIndex(cfg, s, a);
    }
  }

  // ---------- runs ----------

  lemma {:induction false} IndexRun(cfg: Config, s: State, run: seq<Action>)
    requires IndexInv(s) && Runs(cfg, s, run)
    ensures IndexInv(After(cfg, s, run)) && s.used <= After(cfg, s, run).used
    ensures forall b :: Effective(After(cfg, s, run).objs, b) && IndexObj(b) in s.used ==> Effective(s.objs, b)
    decreases |run|
  {
    hide IndexInv, Effective, Enabled, Apply;
    if run != [] {
      var s1 := Apply(cfg, s, run[0]);
      StepKeepsIndex(cfg, s, run[0]);
      IndexRun(cfg, s1, run[1..]);
    }
  }

  lemma EmptyIndex(s: State)
    requires Init(s)
    ensures IndexInv(s)
  {
  }

  /** An index blob that was replaced, or deleted, never becomes effective again: in no run of backups, rebuilds,
      forgets and prunes, kept promises or not. */
  lemma SupersededForever(cfg: Config, s: State, before: seq<Action>, later: seq<Action>, b: Blob)
    requires Init(s) && Runs(cfg, s, before) && Runs(cfg, After(cfg, s, before), later)
    requires IndexObj(b) in After(cfg, s, before).used && !Effective(After(cfg, s, before).objs, b)
    ensures !Effective(After(cfg, After(cfg, s, before), later).objs, b)
  {
    hide IndexInv, Effective, Runs, After;
    EmptyIndex(s);
    IndexRun(cfg, s, before);
    IndexRun(cfg, After(cfg, s, before), later);
  }
}
