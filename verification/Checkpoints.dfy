/** Saving a checkpoint. */
module Checkpoints {
  import opened Programs
  import opened Graphs
  import opened SavedRecords
  import opened Databases
  import M = Manifests

  // ---------------------------------------------------------------------------------------------
  // Saving

  /** A dependency that is missing, untracked, or moved past the record makes it unsafe to save. */
  predicate StaleForSave(recs: map<Key, Record>, k: Key)
    requires k in recs
  {
    exists d :: d in recs[k].deps && (d !in recs || recs[d].untracked || recs[d].changedAt > recs[k].verifiedAt)
  }

  /** `writable` are the records marked as fit for a checkpoint whose parameters are at hand. */
  predicate Eligible(recs: map<Key, Record>, writable: set<Key>, k: Key) {
    && k in recs && (k.Query? || k.Resource?) && k in writable
    && !recs[k].answer.Failed? && !recs[k].unconfirmed && !StaleForSave(recs, k)
  }

  /** Every query or resource a member depends on is a member. */
  predicate DependencyClosed(recs: map<Key, Record>, keys: set<Key>) {
    forall k, d :: k in keys && k in recs && d in recs[k].deps && (d.Query? || d.Resource?) ==> d in keys
  }

  /** The records a checkpoint holds: the largest dependency-closed set of eligible ones. */
  method SavedKeys(db: Database, writable: set<Key>) returns (keys: set<Key>)
    ensures (forall k :: k in keys ==> Eligible(db.records, writable, k)) && DependencyClosed(db.records, keys)
    ensures forall closed: set<Key> ::
      (forall k :: k in closed ==> Eligible(db.records, writable, k)) && DependencyClosed(db.records, closed) ==>
      closed <= keys
  {
    keys := set k | k in db.records && Eligible(db.records, writable, k);
    while exists k, d :: k in keys && d in db.records[k].deps && (d.Query? || d.Resource?) && d !in keys
      invariant forall k :: k in keys ==> Eligible(db.records, writable, k)
      invariant forall closed: set<Key> ::
        (forall k :: k in closed ==> Eligible(db.records, writable, k)) && DependencyClosed(db.records, closed) ==>
        closed <= keys
      decreases keys
    {
      var k, d :| k in keys && d in db.records[k].deps && (d.Query? || d.Resource?) && d !in keys;
      keys := keys - {k};
    }
  }

  /** What a manifest lists under each record; inputs are named there, not saved. */
  function LinksOf(manifest: Checkpoint): M.Links {
    map k | k in manifest :: set d | d in manifest[k].deps && !d.Input?
  }

  /** Every dependency written down is saved with the answer written beside it. */
  predicate Linked(manifest: Checkpoint) {
    forall k, d :: k in manifest && d in manifest[k].deps && !d.Input? ==>
      d in manifest && manifest[k].deps[d] == manifest[d].answer
  }

  /** The manifest holds the largest dependency-closed set of eligible records, as written down. */
  ghost predicate Largest(recs: map<Key, Record>, writable: set<Key>, manifest: Checkpoint) {
    && (forall k :: k in manifest ==> Eligible(recs, writable, k) && manifest[k] == WrittenDown(recs, k))
    && DependencyClosed(recs, manifest.Keys)
    && (forall closed: set<Key> ::
          (forall k :: k in closed ==> Eligible(recs, writable, k)) && DependencyClosed(recs, closed) ==>
          closed <= manifest.Keys)
  }

  /** What is written down. It is sound, and its dependencies close no cycle, so it will be accepted. */
  method Save(db: Database, writable: set<Key>) returns (manifest: Checkpoint)
    requires db.Valid()
    ensures Largest(db.records, writable, manifest)
    ensures AllSound(db.cfg.prog, manifest) && Linked(manifest) && !M.Cyclic(LinksOf(manifest))
  {
    var keys := SavedKeys(db, writable);
    manifest := map k | k in keys :: WrittenDown(db.records, k);
    forall k | k in manifest && k.Query? && !manifest[k].untracked ensures SavedSound(db.cfg.prog, k, manifest[k]) {
      SaveIsSound(db.cfg, db.world, db.G(), writable, keys, k);
    }
    SavedLinks(db.cfg, db.world, db.G(), writable, keys, manifest);
  }

  lemma SavedLinks(cfg: Config, w: World, g: Graph, writable: set<Key>, keys: set<Key>, manifest: Checkpoint)
    requires CoreInv(cfg, w, g) && DependencyClosed(g.recs, keys) && manifest.Keys == keys
    requires forall k :: k in keys ==> Eligible(g.recs, writable, k) && manifest[k] == WrittenDown(g.recs, k)
    ensures Linked(manifest) && !M.Cyclic(LinksOf(manifest))
  {
    var links := LinksOf(manifest);
    var order := map k | k in keys :: if k.Query? then g.rank(k.id) + 1 else 0;
    forall k, d | M.DependsOn(links, k, d) ensures d in order && order[d] < order[k] {
      assert d in g.recs[k].deps && StampsOk(g, k) && StampsOk(g, d);
      assert TraceOk(cfg, g, k);
      var i :| 0 <= i < |g.traces[k].keys| && g.traces[k].keys[i] == d;
      assert EdgeOk(cfg, g, k, g.traces[k].keys[i], g.traces[k].answers[i]);
    }
    M.AllOrdered(links, order);
    forall k, d | k in manifest && d in manifest[k].deps && !d.Input?
      ensures d in manifest && manifest[k].deps[d] == manifest[d].answer
    {
      assert d in g.recs[k].deps && StampsOk(g, d);
    }
  }

  function WrittenDown(recs: map<Key, Record>, k: Key): Saved
    requires k in recs
  {
    Saved(recs[k].answer, recs[k].untracked, map d | d in recs[k].deps && d in recs :: recs[d].answer)
  }

  /** Even over inputs set since, a record that is not stale still agrees with its dependencies. */
  lemma SaveIsSound(cfg: Config, w: World, g: Graph, writable: set<Key>, keys: set<Key>, k: Key)
    requires CoreInv(cfg, w, g) && k in keys && k.Query?
    requires (forall q :: q in keys ==> Eligible(g.recs, writable, q)) && DependencyClosed(g.recs, keys) && k in g.recs
    requires !g.recs[k].untracked
    ensures SavedSound(cfg.prog, k, WrittenDown(g.recs, k))
  {
    assert TraceOk(cfg, g, k);
    var t, s := g.traces[k], WrittenDown(g.recs, k);
    forall i | 0 <= i < |t.keys|
      ensures t.keys[i] in g.recs[k].deps && t.keys[i] in g.recs && g.recs[t.keys[i]].answer == t.answers[i]
    {
      var d := t.keys[i];
      assert !d.Ambient?;
      assert d in g.recs[k].deps;
      assert EdgeOk(cfg, g, k, d, t.answers[i]);
      assert StampsOk(g, d);
    }
    assert forall d :: d in s.deps <==> d in t.keys;
    assert Replays(cfg.prog[k.id], t, s.answer) && AnswersOf(t, s.deps);
  }
}
