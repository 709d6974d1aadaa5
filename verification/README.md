# kist: a verified model

kist is a deduplicating backup tool. A repository holds packs of sealed chunks, index blobs that place
the chunks, trees that describe directories and snapshots that name root trees. Its garbage collector
takes no locks: `prune` marks what no snapshot needs, waits a grace period and deletes it, while backups
on other machines go on writing. This project models the parts whose correctness is hard to see in any
single function and proves what they promise.

Dafny 4.11; `dafny verify dfyconfig.toml` checks everything. Functions and lemmas describe values and
protocols; code that changes things step by step is a class or a method with loops, proved against a
specification that does not repeat its body.

## The parts

**The garbage collector** (`Objects`, `GcMachine`, `GcFrames`, `GcIndexHistory`, `GcInvariant`, `GcSteps`,
`GcPruneSteps`, `GcRebuildSteps`, `GcSafety`, `GcNecessity`, `GcProgress`, `GcTwoPasses`, `GcGate`). Any number
of backups, any number of rebuilds of the index and one prune run as a state machine; each action is one
listing, one write, or one look at an object, and a client or a prune may stop after any of them. Two looks are
kept together: prune's HEAD of an object and of its touch, and the gate's HEAD of a tree and of its touch. Prune
lists the three prefixes one by one, and the marks last, when it decides; the gate reads the clock, lists the
marks, reloads the index, looks at packs and then at trees, in that order. The pack chosen for a chunk is
`ChunkTable.IsCanonical`, here as in the indexes. Main results:
- in every state of every run each tree of each snapshot is stored and each of its chunks is in a stored pack that
  the index lists;
- an index blob that was replaced never becomes effective again, in any run, kept promises or not;
- each of the promises asked of the environment is needed: a run that keeps the others ends with a damaged snapshot;
- with no new snapshot, two passes of prune a grace apart delete everything that was unneeded and old at the first;
- the gate lets no backup through without what it has to have, and every backup beside which no prune is at work.

The environment promises, as predicates in `GcMachine`:
- `GraceCoversBackup`: a backup finishes writing less than the prune grace after it started.
- `CommitInMargin`: the snapshot is written within the margin after the gate read the clock.
- `DeleteStillDead`: nothing revives an object between prune's HEAD requests and its DELETE.
- `RebuildApart`: prune and `rebuild-index` do not overlap. A rebuild between two prunes, beside any backups, is safe.

`Config.Valid` (backup grace not longer than prune grace) is what the configuration file enforces.

**Indexes** (`ChunkTable`, `ChunkIndexing`, `PruneIndexing`, `Repacking`, `IndexCaching`). The one rule that
picks a canonical pack for a chunk; prune's sorted table and linear merge against the backup's ranked
merge; repacking; the on-disk cache.

**The reachability walk** (`Reachability`), over trees that may link to each other in any way.

**Path patterns and selections** (`Glob`, `PathFiltering`, `Restoring`, `RestoringRoots`, `SourceWalk`,
`BackupAndRestore`). The backtracking glob matcher and the stepwise path matcher against exhaustive recursive
matchers; partial restore of any number of roots, with its pruning, lazily made directories and dry run; the
backup's roots, and its walk with exclusions and named paths, from the given paths to what is in the backup; and
both together (`BackupAndRestore`): what was taken comes back where it was, and as what it was.

**The write path** (`Chunking`, `PackFormat`, `Packing`, `WritePath`, `StoredFiles`, `Segments`). FastCDC over a
refillable buffer; packs; the deduplicating loop; whole files with long chunk lists and the reuse of unchanged ones;
directories as chains of trees, and the stream that reads the parent directory beside a new listing.

**Retention** (`Retention`).

## What the proofs found

- The incremental index cache can go stale. A load that merges a superseded blob away leaves it out of the
  manifest; the next load from the same repository takes it for new and merges it back, and computes
  supersession from the new blobs only. `IndexCaching.SecondLoadGoesBack` is such a run with two blobs: the second
  table places a chunk in a pack that only the superseded blob lists. `IndexCaching.SecondLoadIsRightIff` says exactly
  when a second load is right, `IndexCaching.LoadIsRightIff` when any load is, and `IndexCaching.LoadIsRight` that
  every load is, as long as no live blob outside the manifest is superseded by one in it.
- Prune's HEAD requests and its DELETE are separate requests. If a touch, a gate and a commit fall
  between them, the snapshot loses a tree (`GcNecessity.DeleteMustBeAtomic`). The margin check of
  the gate does not exclude this; a conditional delete would.
- The gate checks a mark's age against its own clock without the margin that it applies to the backup's
  own age. That is harmless as long as every backup finishes within the grace. One backup that does not can
  publish an index entry for a pack that is gone; another backup that keeps every rule may reuse a
  chunk from it, pass the gate on the strength of a second pack whose mark expires within the margin, and
  commit a snapshot whose chunk is nowhere (`GcNecessity.GraceMustCoverBackups`).
- A rebuild of the index that overlaps a prune can do the same: it reads the trailer of a pack, prune deletes the
  pack, and the rebuilt blob, written after that, lists it (`GcNecessity.RebuildMustBeApart`).
- An object that was used after it was marked is not deleted two passes later even if it is unneeded by then: the
  first pass that may act on the mark removes it, and the grace starts again. `GcProgress.MarkedGoesIff` gives the
  exact condition.
- A directory of which nothing was taken but a file or link of its own name looks like a single file in the snapshot:
  it is restored one level too high. `BackupAndRestore.DirComesBackIff` shows that this is the only such case.
- Section 13.3 of `docs/format.md` has the gate confirm the trees whose mark had expired when the backup
  began; the code confirms every reachable tree that was marked then, and every one whose mark has expired by
  now (`verify_touched_trees`). The model follows the code.

## Model

| member | source | states |
|---|---|---|
| GcSafety.StepInv | crates/kist-core/src/prune.rs:285-735 | every single action of backup, rebuild, forget and prune keeps the invariant, also when its client stops after it |
| GcSafety.SnapshotsStayIntact | crates/kist-core/src/prune.rs:564-735 | in every state of every run all trees and chunks reachable from snapshots are stored and listed, and the index lists no pack that is gone |
| GcSafety.AnyListedHolderIsStored | crates/kist-core/src/repo.rs:540-557 | whichever listed holder of a needed chunk a reader picks is in storage |
| GcIndexHistory.SupersededForever | crates/kist-core/src/repo.rs:490-515 | in no run of backups, rebuilds, forgets and prunes does a replaced or deleted index blob become effective again; no promise of the environment is used |
| GcIndexHistory.StepKeepsIndex | crates/kist-core/src/rebuild.rs:30-71 | any step keeps the history of the index, and makes no written blob effective that was not |
| GcRebuildSteps.StepRWrite | crates/kist-core/src/rebuild.rs:30-71 | the rebuilt blob lists all that was listed and nothing that is gone, so the invariant holds on |
| GcSteps.StepGate | crates/kist-core/src/backup.rs:634-771 | the gate's clock, listing, reload and looks at packs keep the invariant |
| GcSteps.StepBCommit | crates/kist-core/src/backup.rs:628-690 | a commit within the margin after the gate keeps the invariant, also beside a prune that walked before it |
| GcSteps.StepBFinish | crates/kist-core/src/backup.rs:1127-1140 | publishing the backup's index blob keeps the invariant while prune may hold an older list of blobs |
| GcSteps.StepBPutTree | crates/kist-core/src/backup.rs:1619-1672 | writing a tree, or finding it present and having to touch it, keeps the invariant |
| GcSteps.StepBHealTree | crates/kist-core/src/backup.rs:1631-1648 | overwriting a damaged tree keeps the invariant |
| GcSteps.StepBConfirmTree | crates/kist-core/src/backup.rs:815-839 | a tree that is present and touched since its mark is protected from the running prune |
| GcPruneSteps.StepPWriteIndex | crates/kist-core/src/prune.rs:600-647 | the rewritten index keeps every pack a snapshot or a viable backup needs listed, drops every condemned one, and lists no missing one |
| GcPruneSteps.StepPList | crates/kist-core/src/prune.rs:348-352 | a listing keeps the invariant while backups go on between the listings |
| GcPruneSteps.StepPDecide | crates/kist-core/src/prune.rs:354-514 | the decisions, with the canonical pack of each chunk as the needed one, condemn nothing that a snapshot or a viable backup needs |
| GcPruneSteps.SomeHolderIsChosen | crates/kist-core/src/prune.rs:185-227 | every chunk that has a holder has one that is chosen for it |
| GcPruneSteps.ClearedIsDisposable | crates/kist-core/src/prune.rs:649-686 | an object that passed the HEAD checks and is still dead is needed by no snapshot, no viable backup and no reader of the index |
| GcPruneSteps.StepPDelete | crates/kist-core/src/prune.rs:686-712 | the DELETE of such an object keeps the invariant |
| GcPruneSteps.StepTouchGone | crates/kist-core/src/prune.rs:700-712 | removing the touch of a tree that is gone cannot hide a revival |
| GcNecessity.DeleteMustBeAtomic | crates/kist-core/src/prune.rs:656-686 | without an atomic check and DELETE some run damages a snapshot although every other promise is kept |
| GcNecessity.CommitMustBePrompt | crates/kist-core/src/backup.rs:634-640 | without a commit inside the margin some run damages a snapshot although every other promise is kept |
| GcNecessity.GraceMustCoverBackups | crates/kist-core/src/backup.rs:724-771 | without a grace longer than every backup some run damages the snapshot of another backup that keeps all promises |
| GcNecessity.RebuildMustBeApart | crates/kist-core/src/rebuild.rs:30-71 | with a rebuild that overlaps a prune some run damages a snapshot although every other promise is kept |
| GcProgress.TwoPassesDelete | crates/kist-core/src/prune.rs:398-514 | what was unneeded, and old or already marked, when the first of two passes a grace apart began, and has not been used since its mark, is gone after the second; that it stays unneeded is proved |
| GcTwoPasses.TwoPassesHappen | crates/kist-core/src/prune.rs:285-735 | there are two such passes, action by action, over a repository with one stray pack |
| GcProgress.MarkedGoesIff | crates/kist-core/src/prune.rs:642-735 | of what was unneeded and marked, two passes delete exactly what was not used since its mark |
| GcProgress.DecidedAgainst | crates/kist-core/src/prune.rs:354-460 | what was unneeded when prune loaded the index is not alive when it decides |
| GcProgress.MarkedIsUnneeded | crates/kist-core/src/prune.rs:185-227 | where every chunk in use has an unmarked pack, a marked pack is unneeded |
| GcProgress.WriteIndexServes | crates/kist-core/src/prune.rs:574-647 | after the rewrite every chunk in use is listed in a pack that this pass neither deletes nor marks |
| GcGate.CommitMeansChecked | crates/kist-core/src/backup.rs:628-771 | in any run, promises kept or not: whoever may commit has touched all it had to touch, opened the gate in time, and has for every chunk below its roots a pack of its own or one that the gate found and that is not marked longer than the grace |
| GcGate.GateLetsThrough | crates/kist-core/src/backup.rs:690-839 | beside no prune the gate stands in nobody's way: the pack chosen for each reused chunk can be found, and every tree that has to be confirmed can be |
| GcGate.YoungIsNotMarked | crates/kist-core/src/prune.rs:398-460 | a pass marks nothing that was written less than a grace before it began, or since |
| GcGate.SparedIsKept | crates/kist-core/src/prune.rs:354-460 | what a pass spares for clients that may be at work is still stored when it is over |
| GcGate.IndexStaysShort | crates/kist-core/src/prune.rs:600-647 | of the blobs that prune has read no more than 64 stay in effect |
| ChunkTable.Canonical | crates/kist-core/src/index.rs:391-401 | the holder that is first by (marked, name) among all holders |
| PruneIndexing.DropDuplicates | crates/kist-core/src/prune.rs:152-171 | one record for each (chunk, holder), sorted, none lost |
| PruneIndexing.PruneIndex.Group | crates/kist-core/src/prune.rs:174-178 | exactly the range of the chunk's records |
| PruneIndexing.PruneIndex.HeldBy | crates/kist-core/src/prune.rs:236-239 | some record of the chunk is in one of the packs |
| PruneIndexing.PruneIndex.MarkAndCanonicalize | crates/kist-core/src/prune.rs:185-227 | chooses for every referenced chunk its canonical stored holder, counts its live bytes once, flags all its stored holders; fails exactly for a chunk without one |
| PruneIndexing.LiveTableSums | crates/kist-core/src/prune.rs:185-227 | the live bytes of a pack are the lengths of the chunks that chose it, each once |
| ChunkIndexing.TableGet | crates/kist-core/src/index.rs:184-196 | binary search on the sorted table is map lookup |
| ChunkIndexing.ChunkIndex.AddPackRanked | crates/kist-core/src/index.rs:340-356 | merges a pack by rank, existing and new location ranked alike |
| ChunkIndexing.ChunkIndex.AddPack | crates/kist-core/src/index.rs:319-332 | merges a pack by smallest name |
| ChunkIndexing.ChunkIndex.ResolvePending | crates/kist-core/src/index.rs:371-380 | pending places become the entries' places in the named pack, all others stay |
| ChunkIndexing.AbsorbIsCanonical | crates/kist-core/src/index.rs:334-356 | the merged overlay knows exactly the chunks with a holder and places each in its canonical pack |
| ChunkIndexing.FoldIgnoresOrder | crates/kist-core/src/index.rs:314-356 | the merge is a function of the set of packs, not of their order |
| Repacking.BackupAndPruneAgree | crates/kist-core/src/prune.rs:185-227 | backup and prune choose the same pack for a chunk if and only if the backup's choice is in storage |
| Repacking.RepackPacks | crates/kist-core/src/prune.rs:818-933 | copied is, once each, exactly what is needed, held by no pack that stays, and held by a listed pack that can be read; failed is exactly a pack that cannot be read and holds something to move that no earlier pack gave; every new pack but the last is full, and none was before its last chunk |
| Repacking.EveryChunkStaysHeld | crates/kist-core/src/prune.rs:574-647 | after the rewrite every referenced chunk has a home that the new index lists: a new pack, filled from a pack that could be read, or a needed, stored, undeleted one that was not repacked or has failed |
| IndexCaching.MergeOldNew | crates/kist-core/src/cache.rs:262-301 | the two-cursor merge of sorted tables is map union, new records winning |
| IndexCaching.IndexCache.Rebuild | crates/kist-core/src/cache.rs:153-225 | both passes build the sorted table of exactly the blobs that nothing supersedes, and the list of their packs |
| IndexCaching.LoadIsRight | crates/kist-core/src/cache.rs:82-225 | if no live blob outside the manifest is superseded by one in it, the table holds exactly the chunks of the blobs nothing supersedes, at places those give, and the manifest is fit for the next load |
| IndexCaching.LoadIsRightIff | crates/kist-core/src/cache.rs:82-150 | any load is right exactly when each chunk it merges, and each it keeps, is at a place that an effective blob gives; nothing is ever missing |
| IndexCaching.RightIsPlainIndex | crates/kist-core/src/repo.rs:517-530 | the chunks of a right table are those of the index folded from all effective blobs |
| IndexCaching.IncrementalAgreesIff | crates/kist-core/src/cache.rs:97-146 | an incremental load leaves exactly the effective blobs in the manifest if and only if every live blob that the manifest's blobs supersede is itself new and superseded by a new blob as well |
| IndexCaching.IndexCache.Load | crates/kist-core/src/cache.rs:82-150 | rebuild or merge, the table and the list of packs are those of exactly the blobs of the new manifest, and the table says what rebuilding or merging has to give |
| IndexCaching.SecondLoadAgreesIff | crates/kist-core/src/cache.rs:82-150 | a second load from an unchanged repository leaves the right manifest exactly when nothing is superseded |
| IndexCaching.SecondLoadIsRightIff | crates/kist-core/src/cache.rs:82-150 | a second load from an unchanged repository has a right table exactly when each chunk of the blobs it merges back is first met at a place that an effective blob gives as well |
| IndexCaching.SecondLoadGoesBack | crates/kist-core/src/cache.rs:97-119 | two blobs for which the second load places a chunk where only the superseded blob has it |
| Reachability.Walk.WalkTree | crates/kist-core/src/reach.rs:75-174 | everything newly found has been dealt with, or what is wrong with it is reported, also after an error; too deep is reported only where a way without repetitions leads through as many directories as a reader goes into; the walk goes nowhere the links do not lead and ends on circles |
| Reachability.Walk.VisitFile | crates/kist-core/src/reach.rs:129-166 | every data and list chunk of the file is recorded, and each that the index lacks, or the list that cannot be read, is reported |
| Reachability.WalkReferences | crates/kist-core/src/reach.rs:44-70 | whatever is reached is dealt with or reported; without errors the live trees are the least closed set over the roots, and the chunks recorded are exactly those it uses, all in the index |
| Reachability.DamageIsReported | crates/kist-core/src/reach.rs:104-166 | every damaged tree that is reached is reported, whatever else is damaged |
| Reachability.ErrorsExactlyWhenDamaged | crates/kist-core/src/reach.rs:75-174 | where all snapshots can be read and no directories are nested too deep there is an error exactly when something reached is damaged |
| Glob.UnitsOfText | crates/kist-core/src/filter.rs:378-396 | reading valid UTF-8 gives back the characters it was written from |
| Glob.ClassTakes | crates/kist-core/src/filter.rs:358-374 | a list of ranges takes exactly the characters of which some form is listed, a negated one exactly the rest, stray bytes included |
| Glob.ClassAgainstName | crates/kist-core/src/filter.rs:358-374 | a name of one character, as bytes, matches a class exactly if the character is listed, or is not and the class is negated |
| Glob.LiteralsMatchTheirName | crates/kist-core/src/filter.rs:358-428 | a pattern without special characters matches, as bytes, exactly the names it spells, folding case or not |
| Glob.LaterStarSuffices | crates/kist-core/src/filter.rs:400-428 | once a later star is reached, other choices for the earlier one cannot help |
| Glob.GlobMatch | crates/kist-core/src/filter.rs:400-428 | remembering only the last star accepts exactly what the exhaustive matcher accepts, and terminates, for all bytes |
| PathFiltering.FilterState.Add | crates/kist-core/src/filter.rs:204-228 | adds exactly the positions that skipping `**` reaches; looking at the last group keeps the lists free of repeats |
| PathFiltering.WaitingStep | crates/kist-core/src/filter.rs:150-174 | a position waits after one more name exactly when it came from a waiting one |
| PathFiltering.Descend | crates/kist-core/src/filter.rs:150-174 | the child's state matches the recursive reference and its decision is that of the highest matching pattern |
| PathFiltering.WalkTo | crates/kist-core/src/filter.rs:141-174 | along every path the state says what the reference matcher says |
| PathFiltering.NothingMatchesBelow | crates/kist-core/src/filter.rs:193-197 | where no positive pattern is active nothing below is selected |
| Restoring.ChosenExactly | crates/kist-core/src/restore.rs:605-664 | chosen means: there, no exclude match on the way or at it, and the nearest include decision says yes |
| Restoring.Select.Child | crates/kist-core/src/restore.rs:608-634 | the position of a child, or nothing exactly if an exclude matches it |
| Restoring.Select.Visit | crates/kist-core/src/restore.rs:656-664 | a node is passed over only if nothing in it is chosen; includes that cover a selected node are counted |
| Restoring.NothingChosenBelow | crates/kist-core/src/filter.rs:193-197 | pruning by `may_match_below` drops nothing that is chosen |
| Restoring.Plan.Open | crates/kist-core/src/restore.rs:725-739 | reports every directory on the way not yet made, outermost first |
| Restoring.Plan.PlanDir | crates/kist-core/src/restore.rs:1063-1113 | the dry run of a directory has the specified outcome |
| Restoring.PendingDir.Ensure | crates/kist-core/src/restore.rs:502-535 | makes this directory and those above it once, outermost first |
| Restoring.Restore.RestoreDir | crates/kist-core/src/restore.rs:1229-1293 | the real restore of a directory has the same outcome: made only if something in it is chosen, counted if made |
| RestoringRoots.PlaceRoot | crates/kist-core/src/restore.rs:848-932 | a root is elsewhere, refused, passed over or placed, as its locator, the subtree and the selection say |
| RestoringRoots.PlaceRoots | crates/kist-core/src/restore.rs:817-841 | refuses a subtree that is no directory or in no root; the roots passed over do not change the outcome |
| RestoringRoots.PassingOverLosesNothing | crates/kist-core/src/restore.rs:865-887 | nothing that is selected and not excluded lies in a root that is passed over |
| RestoringRoots.OpenPlacement | crates/kist-core/src/restore.rs:937-957 | the content of a single-file root goes one level up; a selected place counts as restored |
| RestoringRoots.PlanRestore | crates/kist-core/src/restore.rs:964-1010 | what the dry run reports for all roots together: the things to make in order, the directories counted, the places, the includes that cover nothing chosen |
| RestoringRoots.RestoreSnapshot | crates/kist-core/src/restore.rs:753-813 | the real restore of all roots makes, counts and names exactly that, and makes a place only if something goes there |
| RestoringRoots.DryRunIsTrue | crates/kist-core/src/restore.rs:959-963 | two answers to the same request are the same: refusal, things made and their order, count, places, includes that found nothing |
| SourceWalk.RootsOf | crates/kist-core/src/backup.rs:881-911 | the roots are an antichain, every given path is a root or named inside one, and nothing else is |
| SourceWalk.NameAll | crates/kist-core/src/backup.rs:310-325 | `toward` is exactly the set of directories on the way to a named path |
| SourceWalk.Walk.WalkDir | crates/kist-core/src/backup.rs:1485-1613 | in a root at any locator: takes every named path, the content of named directories wherever they lie, and everything no rule speaks against, nothing that is not there, and below anything else cut off or on another file system only the way to named paths; each entry is of the kind of its item, at most one for each, in the order of the listing, and none too deep to be read back |
| SourceWalk.Walk.WalkItem | crates/kist-core/src/backup.rs:1544-1605 | the same for one item, with its file system boundary |
| SourceWalk.EntryIsOfItsKind | crates/kist-core/src/backup.rs:1305-1470 | every entry, however deep, stands for what the source has at its path, and is a directory, file or link as that is |
| SourceWalk.MirrorsKeepsOrder | crates/kist-core/src/backup.rs:1510-1600 | a sorted listing gives sorted entries, as the segments of a directory need |
| SourceWalk.BackupRoot | crates/kist-core/src/backup.rs:1005-1019 | a root is walked from the state its locator leads the patterns to; a root that is a file holds that one entry |
| SourceWalk.BackupSources | crates/kist-core/src/backup.rs:855-1100 | every given path is in the backup of the root it belongs to, whatever the rules exclude above it; each root holds what the rules leave and no more |
| SourceWalk.GivenIsBackedUp | crates/kist-core/src/backup.rs:300-325 | a given path inside a root has its entry there, unless it lies too deep to be read back |
| BackupAndRestore.RestoredWhereItWas | crates/kist-core/src/restore.rs:843-957 | whatever any restore of a backup makes, with any selection and subtree, the source had at the same path, and as the same kind of thing |
| BackupAndRestore.EverythingComesBack | crates/kist-core/src/restore.rs:753-813 | a restore without rules makes every entry of a directory root at the path of the root and its own, and the one entry of a file root at the path of the root |
| BackupAndRestore.DirComesBackIff | crates/kist-core/src/restore.rs:76-80 | a directory comes back where it was exactly if it was not backed up as nothing but one file or link of its own name |
| Chunking.RoundLog2 | crates/kist-chunker/src/lib.rs:336-349 | 2^(2r-1) <= v^2 < 2^(2r+1), with no overflow on the way |
| Chunking.NewCutter | crates/kist-chunker/src/lib.rs:296-304 | the two masks lie two bits around the rounded logarithm of the average |
| Chunking.Boundary | crates/kist-chunker/src/lib.rs:355-386 | the first cut point, the largest size or the end, whichever comes first |
| Chunking.CutIsMasked | crates/kist-chunker/src/lib.rs:296-386 | a cut point is where `fp & mask == 0`, with the masks of `Chunker::new` |
| Chunking.BoundaryLooksAhead | crates/kist-chunker/src/lib.rs:9-10 | with `max` bytes at hand the boundary does not depend on what follows |
| Chunking.FingerprintWindow | crates/kist-chunker/src/lib.rs:368-384 | the low k bits of the fingerprint depend on the last k bytes only |
| Chunking.CutIsLocal | crates/kist-chunker/src/lib.rs:355-386 | the same bytes make the same cut points wherever they stand |
| Chunking.State.Fill | crates/kist-chunker/src/lib.rs:401-433 | afterwards `max` bytes are at hand or the input is exhausted; a read error loses nothing |
| Chunking.State.NextChunk | crates/kist-chunker/src/lib.rs:435-453 | hands out the first chunk of the bytes not yet taken |
| Chunking.ChunkAll | crates/kist-chunker/src/lib.rs:435-475 | the chunks are a function of the bytes and parameters, whatever the schedule of short and interrupted reads; an error is reported exactly if a read failed, with the chunks before it |
| Chunking.ChunksConcatenate | crates/kist-chunker/src/lib.rs:307-309 | the chunks concatenate to the input |
| Chunking.ChunkSizes | crates/kist-chunker/src/lib.rs:353-386 | no chunk exceeds `max`; every chunk but the last has at least `min` |
| PackFormat.BeRoundTrip | crates/kist-format/src/pack.rs:85-110 | the length in the footer reads back |
| PackFormat.TrailerIsFound | crates/kist-format/src/pack.rs:85-140 | the trailer of a finished pack is found again, right behind the chunk data |
| PackFormat.TrailerIsFramed | crates/kist-format/src/pack.rs:114-140 | whatever is read as a trailer is framed by magic, length and magic |
| PackFormat.FooterIsEnough | crates/kist-core/src/rebuild.rs:76-90 | the last bytes of a pack are enough to read its footer, which is one exactly if it ends in the magic |
| PackFormat.ValidateTrailer | crates/kist-core/src/pack.rs:245-291 | accepts exactly the entry lists that cover the data region without gap, overlap or repeated id, within the length limits |
| Packing.ReadTrailer | crates/kist-core/src/pack.rs:202-241 | succeeds exactly for a trailer that is found, opened, decoded, of this version and consistent |
| Packing.PackWriter.Add | crates/kist-core/src/pack.rs:140-152 | appends one entry whose slice decodes to the chunk; earlier entries stay readable |
| Packing.PackWriter.Finish | crates/kist-core/src/pack.rs:155-165 | the finished pack passes `validate_trailer` and every entry decodes from its slice |
| WritePath.Backup.AddChunk | crates/kist-core/src/backup.rs:1940-1972 | a chunk that is in the open pack or in an unmarked finished one is reused from there and nothing is written; any other, also one in a marked pack, is written once; nothing known is lost |
| WritePath.EachChunkIsWrittenOnce | crates/kist-core/src/backup.rs:1940-1972 | of all packs a backup writes no two hold the same chunk, nor one chunk twice, unless a new pack carries a marked name |
| WritePath.Backup.FlushPack | crates/kist-core/src/backup.rs:2021-2052 | nothing is pending afterwards, nothing that could be read is lost, and exactly the open pack has become the next pack |
| WritePath.Backup.HandleFinished | crates/kist-core/src/backup.rs:2042-2052 | once a closed pack is uploaded, what the index places in it can be read |
| WritePath.Backup.RecordReferenced | crates/kist-core/src/backup.rs:1873-1881 | exactly the reused chunks of finished packs are added to what the commit gate will look at |
| WritePath.Backup.ChunkReader | crates/kist-core/src/backup.rs:1887-2019 | the ids of the file in order, each readable or pending, each accounted for; nothing that was settled is written again, and each pack is closed as soon as it is full |
| WritePath.Backup.StoreFile | crates/kist-core/src/backup.rs:1887-2019 | the same from the bytes of the file, under any schedule of reads |
| WritePath.FileReadsBack | crates/kist-core/src/restore.rs:1397-1418 | once nothing is pending the ids of a file read back as its bytes |
| StoredFiles.ProcessFile | crates/kist-core/src/backup.rs:1683-1766 | the entry of a file is a function of its bytes, with a list of chunks stored as data when it is long; all its chunks are known and accounted for |
| StoredFiles.BackupFiles | crates/kist-core/src/backup.rs:1683-1766 | any files stored one after the other, the last pack flushed, read back as their bytes; nothing that was settled is written again, and every pack but the last is full |
| StoredFiles.StoredReadsBack | crates/kist-core/src/restore.rs:1337-1354 | a stored file, with a list or without, reads back as its bytes |
| StoredFiles.TryReuse | crates/kist-core/src/backup.rs:1778-1871 | an entry is taken over exactly if it is proven unchanged and every chunk of it and of its list is at hand; it is then what storing the file again would give, and every chunk of it stays and is accounted for |
| Segments.Validate | crates/kist-format/src/tree.rs:65-85 | comparing neighbours accepts exactly the strictly sorted entry lists |
| Segments.FollowChain | crates/kist-core/src/repo.rs:432-449 | finds the chain of segments, and fails exactly when there is none |
| Segments.ReadTreeChain | crates/kist-core/src/repo.rs:432-449 | reads the entries of the unique chain in order |
| Segments.TreeStore.WriteDirectory | crates/kist-core/src/backup.rs:1534-1612 | writes a chain of sorted segments that holds exactly the entries, every segment but the last full and the last not |
| Segments.DirectoryRoundTrip | crates/kist-core/src/backup.rs:1534-1612 | a directory of any size, segmented and read back, is the same directory |
| Segments.ParentStream.TakeName | crates/kist-core/src/backup.rs:576-597 | takes from the stream what a merge-join takes, never an entry of another name or from a segment that cannot be read; losing a segment ends the stream |
| Segments.GrowingQueriesAreLookups | crates/kist-core/src/backup.rs:530-538 | under growing queries the stream answers like a lookup in the whole directory |
| Retention.FirstOfItsBucket | crates/kist-core/src/forget.rs:136-149 | what a counter decides is: newest of its bucket, bucket among the latest n |
| Retention.ApplyPolicy | crates/kist-core/src/forget.rs:95-154 | one pass gives every snapshot exactly the reasons the rules promise, newest first |
| Retention.RulesKeepSpans | crates/kist-core/src/forget.rs:103-174 | the hourly, daily and weekly rules keep exactly the newest of each UTC hour, day or ISO week, as long as there are fewer later ones with a snapshot than the rule keeps |
| Retention.OneKeptOfASpan | crates/kist-core/src/forget.rs:136-174 | two snapshots kept by such a rule never share an hour, a day or a week |
| Retention.OrderDoesNotMatter | crates/kist-core/src/forget.rs:92-100 | the result does not depend on the order of the input |
| Retention.Forget | crates/kist-core/src/forget.rs:178-252 | removes exactly the named snapshots and those the policy gives no reason to keep, lists the others with their reasons, and refuses empty requests, zero rules and the first unknown name |
| Retention.GroupIsNeverEmptied | crates/kist-core/src/forget.rs:178-245 | in every group the newest of the snapshots that were not named stays |

## Left out

- Encryption, hashing, zstd and CBOR: parameters of which only the inverse laws are known; in the
  garbage collector a name and the content it stands for are one value.
- Several prunes at once, clocks that disagree, and the rule about active clients in the garbage collector: that rule
  may only spare objects, and the machine lets prune spare any set of them.
- Parity sidecars and `.r1` replicas, which follow the object they belong to.
- Whether a stored tree is damaged: a backup may overwrite any tree it found present.
- GcSafety.SnapshotsStayIntact: holds under the four environment promises listed above, each of which is shown to be needed.
- GcProgress.TwoPassesDelete: counts on every DELETE reaching the store and on neither pass being broken off; a tree touched in the very second the first pass begins is not covered.
- Repacking.RepackPacks: which packs can be read and decoded is given; the bytes of the chunks are not followed.
- IndexCaching.IndexCache.Load: leaves out the file format of the table and the manifest.
- Reachability.Walk.WalkTree: the per-file callback of `check` is not modelled.
- Glob.GlobMatch: the Unicode case tables are a parameter; parsing of patterns is not modelled.
- Restoring.Restore.RestoreDir: file contents, hard links, metadata and failing file operations are not modelled.
- RestoringRoots.RestoreSnapshot: reading a tree always succeeds, and names are valid on the target.
- SourceWalk.BackupSources: the given paths are canonical and absolute; remote sources, read errors and the metadata of entries are not modelled.
- Chunking.Boundary: holds for every gear table of 256 values; the frozen values themselves are not repeated.
- Packing.PackWriter.Finish: that the trailer is found again is stated for trailers shorter than 2^64 bytes.
- WritePath.Backup.ChunkReader: uploads are immediate; concurrency and memory bounds of the uploads are not modelled.
- StoredFiles.TryReuse: what proves a file unchanged is given; the hard links of one backup are not modelled.
- Segments.Validate: only the order of the entries; versions and the fields of an entry are not modelled.
- Retention.ApplyPolicy: months and years are any numbering that grows with time; hours, days and ISO weeks are computed in UTC.
- Storage transports, mounting, the daemon, the command line and progress reporting.
