/** The objects of a kist repository, as the garbage collector sees them.

  Trees, packs and index blobs are named by a hash of their content. The hash is
  taken to be injective, so a name and the content it stands for are one value
  here. Packs and blobs are sealed with a random nonce, which makes every sealed
  object a new one, under a name that no other has; a tree is named by its plaintext, so two backups that meet
  the same directory produce the same tree.
 */
module Objects {

  /** Whole seconds, as the storage backend reports them. */
  type Time = int

  datatype Chunk = Chunk(digest: nat)

  /** One segment of a directory. `links` holds the subtrees of its entries and
      the `prev` segment; `body` stands for names and metadata. */
  datatype Tree = Tree(body: nat, chunks: set<Chunk>, links: set<Tree>)

  datatype Pack = Pack(name: nat, chunks: set<Chunk>)

  /** An index blob: the packs it lists, and the blobs it replaces. */
  datatype Blob = Blob(nonce: nat, packs: set<Pack>, supersedes: set<Blob>)

  /** The three kinds of object that can carry a `gc/` mark. */
  datatype Obj = PackObj(pack: Pack) | TreeObj(tree: Tree) | IndexObj(blob: Blob)

  /** The trees a snapshot root keeps alive. */
  ghost function Reach(t: Tree): (r: set<Tree>)
    ensures t in r
  {
    {t} + set x, y | x in t.links && y in Reach(x) :: y
  }

  /** A set of trees that contains every link of its members. */
  ghost predicate Closed(ts: set<Tree>) {
    forall t, l | t in ts && l in t.links :: l in ts
  }

  lemma {:induction false} ReachInClosed(r: Tree, ts: set<Tree>)
    requires Closed(ts) && r in ts
    ensures Reach(r) <= ts
    decreases r
  {
    forall x | x in r.links
      ensures Reach(x) <= ts
    {
      ReachInClosed(x, ts);
    }
  }

  /** `b` is stored and no stored blob replaces it: readers use it. */
  ghost predicate Effective(objs: map<Obj, Time>, b: Blob) {
    && IndexObj(b) in objs
    && forall b' | IndexObj(b') in objs :: b !in b'.supersedes
  }

  /** Readers of the index see the pack `p`. */
  ghost predicate Listed(objs: map<Obj, Time>, p: Pack) {
    exists b :: Effective(objs, b) && p in b.packs
  }

  /** The same, for a set of blobs already read (`load_index_blobs`). */
  ghost predicate EffectiveIn(bs: set<Blob>, b: Blob) {
    b in bs && forall b' | b' in bs :: b !in b'.supersedes
  }

  ghost function IndexedIn(bs: set<Blob>): set<Pack> {
    set b, p | b in bs && EffectiveIn(bs, b) && p in b.packs :: p
  }

  ghost function EffectiveOf(bs: set<Blob>): set<Blob> {
    set b | b in bs && EffectiveIn(bs, b)
  }
}
