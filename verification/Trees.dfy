/** File trees and what reconciling a declared output set against one amounts to. */
module Trees {

  type Bytes = seq<int>

  /** A root-relative path by components. Paths equal up to portable spelling are one path. */
  type Path = seq<string>

  /** `id` is the file's identity on its device: a replacement under the same name has another. */
  datatype Node = File(content: Bytes, id: nat) | Dir

  type Tree = map<Path, Node>

  /** `a` is a proper ancestor directory position of `p`. */
  predicate Above(a: Path, p: Path) {
    a != [] && |a| < |p| && p[..|a|] == a
  }

  lemma AboveTransitive(a: Path, b: Path, c: Path)
    requires Above(a, b) && Above(b, c)
    ensures Above(a, c)
  {
    assert c[..|a|] == c[..|b|][..|a|];
  }

  /** Ancestors of one path lie on one line. */
  lemma AboveComparable(a: Path, b: Path, p: Path)
    requires Above(a, p) && (Above(b, p) || b == p) && |a| < |b|
    ensures Above(a, b)
  {
    assert b[..|a|] == p[..|a|];
  }

  /** Every entry hangs below directories. */
  ghost predicate WellFormed(t: Tree) {
    && [] !in t
    && forall p, a {:trigger Above(a, p)} :: p in t && Above(a, p) ==> a in t && t[a].Dir?
  }

  /** A file stands where `p` would need a directory. */
  ghost predicate Blocked(t: Tree, p: Path) {
    exists a :: Above(a, p) && a in t && t[a].File?
  }

  /** What there is to do: the outputs wanted now, and what the ledger recorded last. A recorded
      digest is modelled by the bytes it stands for. */
  datatype Job = Job(desired: map<Path, Bytes>, ledger: map<Path, Bytes>) {
    ghost predicate Valid() {
      Separate(desired.Keys) && Separate(ledger.Keys)
    }

    function Orphans(): set<Path> {
      ledger.Keys - desired.Keys
    }
  }

  /** A set of file paths: none lies below another. */
  ghost predicate Separate(paths: set<Path>) {
    [] !in paths && forall p, q {:trigger Above(p, q)} :: p in paths && q in paths ==> !Above(p, q)
  }

  /** A directory of the previous layout standing where a desired file goes, or below that. */
  ghost predicate InPrune(j: Job, a: Path) {
    && (exists o :: o in j.Orphans() && Above(a, o))
    && (exists d :: d in j.desired && (d == a || Above(d, a)))
  }

  ghost predicate LeadsToDesired(j: Job, a: Path) {
    exists d :: d in j.desired && Above(a, d)
  }

  /** The orphan still carries the recorded bytes. */
  ghost predicate Owned(t: Tree, j: Job, o: Path) {
    o in j.Orphans() && o in t && t[o].File? && t[o].content == j.ledger[o]
  }

  ghost predicate HoldsOnlyDesired(t: Tree, j: Job, o: Path) {
    forall p {:trigger Above(o, p)} :: p in t && Above(o, p) && t[p].File? ==> p in j.desired
  }

  ghost predicate OrphanPasses(t: Tree, j: Job, o: Path) {
    o in t && t[o].Dir? ==> LeadsToDesired(j, o) && HoldsOnlyDesired(t, j, o)
  }

  ghost predicate DesiredPasses(t: Tree, j: Job, d: Path) {
    && (forall a {:trigger Above(a, d)} :: Above(a, d) && a in t && t[a].File? ==> Owned(t, j, a))
    && (d in t && t[d].Dir? ==> InPrune(j, d))
  }

  predicate ChildOf(e: Path, a: Path) {
    Above(a, e) && |e| == |a| + 1
  }

  ghost predicate PrunePasses(t: Tree, j: Job, a: Path) {
    && !Blocked(t, a)
    && (a in t && t[a].Dir? ==>
          forall e {:trigger ChildOf(e, a)} :: e in t && ChildOf(e, a) ==>
            Owned(t, j, e) || (InPrune(j, e) && t[e].Dir?))
  }

  /** The run is not refused before its first mutation. */
  ghost predicate Passes(t: Tree, j: Job) {
    && (forall o :: o in j.Orphans() ==> OrphanPasses(t, j, o))
    && (forall d :: d in j.desired ==> DesiredPasses(t, j, d))
    && (forall a :: InPrune(j, a) ==> PrunePasses(t, j, a))
  }

  ghost predicate Pruned(t: Tree, j: Job, a: Path) {
    InPrune(j, a) && a in t && t[a].Dir?
  }

  /** The tree once orphans are deleted and their directories pruned. */
  ghost function Cleared(t: Tree, j: Job): Tree {
    map p | p in t && !Owned(t, j, p) && !Pruned(t, j, p) :: t[p]
  }

  datatype Entry = Regular(content: Bytes) | Directory

  ghost function View(n: Node): Entry {
    match n case File(c, _) => Regular(c) case Dir => Directory
  }

  /** `t'` is `t` with the outputs in `written` in place and their parent directories made; file
      identities aside. */
  ghost predicate WithOutputs(t: Tree, j: Job, written: set<Path>, t': Tree) {
    && (forall p :: p in t' <==> p in t || p in written || exists w :: w in written && Above(p, w))
    && (forall p :: p in t' ==>
          if p in written && p in j.desired then View(t'[p]) == Regular(j.desired[p])
          else if p in t then View(t'[p]) == View(t[p])
          else t'[p].Dir?)
  }

  /** The reconciled tree: cleared, with every desired output in place. */
  ghost predicate Reconciled(t: Tree, j: Job, t': Tree) {
    WithOutputs(Cleared(t, j), j, j.desired.Keys, t')
  }

  // ---------------------------------------------------------------------------------------------
  // A run that passes converges

  /** Everything below a pruned directory is deleted or pruned with it. */
  lemma {:induction false} BelowPruned(t: Tree, j: Job, a: Path, p: Path)
    requires WellFormed(t) && Passes(t, j) && Pruned(t, j, a) && Above(a, p) && p in t
    ensures Owned(t, j, p) || Pruned(t, j, p)
    decreases |p| - |a|
  {
    var e := p[..|a| + 1];
    assert ChildOf(e, a) && PrunePasses(t, j, a);
    if e == p {
    } else {
      assert Above(e, p);
      BelowPruned(t, j, e, p);
    }
  }

  lemma ClearedWellFormed(t: Tree, j: Job)
    requires WellFormed(t) && Passes(t, j)
    ensures WellFormed(Cleared(t, j))
  {
    var c := Cleared(t, j);
    forall p, a | p in c && Above(a, p) ensures a in c && c[a].Dir? {
      if Pruned(t, j, a) { BelowPruned(t, j, a, p); }
    }
  }

  /** Once cleared, every desired path is free: absent or a regular file, below directories only. */
  lemma ClearedIsFree(t: Tree, j: Job, d: Path)
    requires WellFormed(t) && Passes(t, j) && d in j.desired
    ensures !Blocked(Cleared(t, j), d) && (d in Cleared(t, j) ==> t[d].File?)
  {
    assert DesiredPasses(t, j, d);
  }

  // ---------------------------------------------------------------------------------------------
  // Stopping part way

  /** Where a run can stop before its ledger is published: some orphans deleted; or all of them, and
      some directories pruned; or those too, and some outputs written. */
  datatype Stop = Deleting(gone: set<Path>) | Pruning(gone: set<Path>) | Writing(written: set<Path>)

  ghost predicate StoppedAt(t: Tree, j: Job, stop: Stop, t': Tree) {
    match stop
    case Deleting(gone) =>
      (forall p :: p in gone ==> Owned(t, j, p)) && t' == map p | p in t && p !in gone :: t[p]
    case Pruning(gone) =>
      (forall p :: p in gone ==> Pruned(t, j, p)) && t' == map p | p in t && !Owned(t, j, p) && p !in gone :: t[p]
    case Writing(written) =>
      written <= j.desired.Keys && WithOutputs(Cleared(t, j), j, written, t')
  }

  /** Every orphan below a desired path is its direct child. */
  ghost predicate Shallow(j: Job) {
    forall o, d {:trigger Above(d, o)} :: o in j.Orphans() && d in j.desired && Above(d, o) ==> ChildOf(o, d)
  }

  lemma ShallowPrune(j: Job, a: Path)
    requires Shallow(j) && InPrune(j, a)
    ensures a in j.desired
  {
    var o :| o in j.Orphans() && Above(a, o);
    var d :| d in j.desired && (d == a || Above(d, a));
    if Above(d, a) { AboveTransitive(d, a, o); }
  }

  lemma WritingOrphan(t: Tree, j: Job, written: set<Path>, t': Tree, o: Path)
    requires j.Valid() && WellFormed(t) && Passes(t, j) && StoppedAt(t, j, Writing(written), t') && o in j.Orphans()
    ensures OrphanPasses(t', j, o) && !Owned(t', j, o)
  {
    var c := Cleared(t, j);
    ClearedWellFormed(t, j);
    assert OrphanPasses(t, j, o);
    if o in t' && t'[o].Dir? {
      forall p | p in t' && Above(o, p) && t'[p].File? ensures p in j.desired {
        if p !in written && p in c && o in c { assert Above(o, p) && t[p].File?; }
      }
      if o !in c {
        var w :| w in written && Above(o, w);
        assert LeadsToDesired(j, o);
      }
    }
  }

  lemma WritingDesired(t: Tree, j: Job, written: set<Path>, t': Tree, d: Path)
    requires j.Valid() && WellFormed(t) && Passes(t, j) && StoppedAt(t, j, Writing(written), t') && d in j.desired
    ensures DesiredPasses(t', j, d) && !(d in t' && t'[d].Dir?)
  {
    ClearedIsFree(t, j, d);
  }

  /** Stopped while writing: nothing is left to delete or prune. */
  lemma WritingPasses(t: Tree, j: Job, written: set<Path>, t': Tree)
    requires j.Valid() && WellFormed(t) && Passes(t, j) && StoppedAt(t, j, Writing(written), t') && Shallow(j)
    ensures Passes(t', j) && Cleared(t', j) == t'
  {
    forall o | o in j.Orphans() ensures OrphanPasses(t', j, o) && !Owned(t', j, o) {
      WritingOrphan(t, j, written, t', o);
    }
    forall d | d in j.desired ensures DesiredPasses(t', j, d) && !(d in t' && t'[d].Dir?) {
      WritingDesired(t, j, written, t', d);
    }
    forall a | InPrune(j, a) ensures PrunePasses(t', j, a) && !Pruned(t', j, a) {
      ShallowPrune(j, a);
      assert PrunePasses(t, j, a);
    }
  }

  lemma DeletingPasses(t: Tree, j: Job, gone: set<Path>, t': Tree)
    requires WellFormed(t) && Passes(t, j) && StoppedAt(t, j, Deleting(gone), t')
    ensures Passes(t', j) && Cleared(t', j) == Cleared(t, j)
  {
    forall o | o in j.Orphans() ensures OrphanPasses(t', j, o) { assert OrphanPasses(t, j, o); }
    forall d | d in j.desired ensures DesiredPasses(t', j, d) { assert DesiredPasses(t, j, d); }
    forall a | InPrune(j, a) ensures PrunePasses(t', j, a) { assert PrunePasses(t, j, a); }
  }

  lemma PruningPasses(t: Tree, j: Job, gone: set<Path>, t': Tree)
    requires WellFormed(t) && Passes(t, j) && StoppedAt(t, j, Pruning(gone), t')
    ensures Passes(t', j) && Cleared(t', j) == Cleared(t, j)
  {
    forall o | o in j.Orphans() ensures OrphanPasses(t', j, o) { assert OrphanPasses(t, j, o); }
    forall d | d in j.desired ensures DesiredPasses(t', j, d) { assert DesiredPasses(t, j, d); }
    forall a | InPrune(j, a) ensures PrunePasses(t', j, a) { assert PrunePasses(t, j, a); }
  }

  /** Resumption: over a layout change that is shallow, a run stopped anywhere before its ledger is
      published can be repeated against the old ledger. It is not refused, and it ends in the tree
      the uninterrupted run ends in. */
  lemma Resumes(t: Tree, j: Job, stop: Stop, t': Tree, t'': Tree)
    requires j.Valid() && WellFormed(t) && Passes(t, j) && StoppedAt(t, j, stop, t') && Shallow(j)
    ensures Passes(t', j)
    ensures Reconciled(t', j, t'') <==> Reconciled(t, j, t'')
  {
    match stop
    case Deleting(gone) => DeletingPasses(t, j, gone, t');
    case Pruning(gone) => PruningPasses(t, j, gone, t');
    case Writing(written) =>
      WritingPasses(t, j, written, t');
      forall p ensures (p in t' || p in j.desired || exists w :: w in j.desired && Above(p, w))
        <==> (p in Cleared(t, j) || p in j.desired || exists w :: w in j.desired && Above(p, w)) {}
      WrittenTwice(t, j, written, t', t'');
  }

  lemma WrittenTwice(t: Tree, j: Job, written: set<Path>, t': Tree, t'': Tree)
    requires j.Valid() && WellFormed(t) && Passes(t, j) && StoppedAt(t, j, Writing(written), t')
    ensures WithOutputs(t', j, j.desired.Keys, t'') <==> WithOutputs(Cleared(t, j), j, j.desired.Keys, t'')
  {
    assert forall p :: p in t' && p !in Cleared(t, j) && p !in j.desired ==> t'[p].Dir?;
  }

  /** Exactly the shallow layout changes resume: below a desired path, an orphan two levels down makes
      the repeated run refuse once that path has been written. */
  lemma ResumableIffShallow(t: Tree, j: Job)
    requires j.Valid() && WellFormed(t) && Passes(t, j)
    ensures Shallow(j) <==> forall stop, t' :: StoppedAt(t, j, stop, t') ==> Passes(t', j)
  {
    if Shallow(j) {
      forall stop, t' | StoppedAt(t, j, stop, t') ensures Passes(t', j) { Resumes(t, j, stop, t', t'); }
    } else {
      var o, d :| o in j.Orphans() && d in j.desired && Above(d, o) && !ChildOf(o, d);
      var a := o[..|d| + 1];
      assert Above(d, a) && Above(a, o);
      var t' := AllWritten(t, j);
      assert StoppedAt(t, j, Writing(j.desired.Keys), t');
      assert d in t' && t'[d].File?;
      assert Blocked(t', a) && InPrune(j, a);
    }
  }

  /** A change that passes and does not resume: the file a/b/c becomes the file a. */
  lemma NotResumable(old_: Bytes, new_: Bytes)
    ensures var j := Job(map[["a"] := new_], map[["a", "b", "c"] := old_]);
            var t: Tree := map[["a"] := Dir, ["a", "b"] := Dir, ["a", "b", "c"] := File(old_, 0)];
            && j.Valid() && WellFormed(t) && Passes(t, j) && !Shallow(j)
            && exists stop, t' :: StoppedAt(t, j, stop, t') && !Passes(t', j)
  {
    var j := Job(map[["a"] := new_], map[["a", "b", "c"] := old_]);
    var t: Tree := map[["a"] := Dir, ["a", "b"] := Dir, ["a", "b", "c"] := File(old_, 0)];
    var o: Path := ["a", "b", "c"];
    assert j.Orphans() == {o};
    assert o[..1] == ["a"] && o[..2] == ["a", "b"] && ["a", "b"][..1] == ["a"];
    forall p: Path, q: Path | q in t && Above(p, q) ensures p == ["a"] || p == ["a", "b"] {
      assert p == q[..1] || p == q[..2];
    }
    assert Above(["a"], o);
    ResumableIffShallow(t, j);
  }

  /** The tree with every output written, as it stands before the ledger is published. */
  ghost function AllWritten(t: Tree, j: Job): (t': Tree)
    requires j.Valid() && WellFormed(t) && Passes(t, j)
    ensures Reconciled(t, j, t')
  {
    var c := Cleared(t, j);
    var parents := set d, i | d in j.desired && 0 < i < |d| :: d[..i];
    assert forall p :: p in parents <==> exists w :: w in j.desired && Above(p, w) by {
      forall p | exists w :: w in j.desired && Above(p, w) ensures p in parents {
        var w :| w in j.desired && Above(p, w);
        assert p == w[..|p|];
      }
    }
    map p | p in c.Keys + j.desired.Keys + parents ::
      if p in j.desired then File(j.desired[p], 0) else if p in c then c[p] else Dir
  }

  /** After a completed run the ledger equals the desired set, and nothing is left to do. */
  lemma SecondRunIsIdle(t: Tree, j: Job, t': Tree)
    requires j.Valid() && WellFormed(t) && Passes(t, j) && Reconciled(t, j, t')
    ensures var again := Job(j.desired, j.desired);
            && Passes(t', again) && Cleared(t', again) == t'
            && forall d :: d in j.desired ==> d in t' && View(t'[d]) == Regular(j.desired[d])
  {
    var again := Job(j.desired, j.desired);
    forall d | d in j.desired ensures DesiredPasses(t', again, d) {
      WritingDesired(t, j, j.desired.Keys, t', d);
      ClearedIsFree(t, j, d);
    }
  }
}
