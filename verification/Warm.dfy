/** Loading a checkpoint, and exactly when a saved record may be stored.
 */
module Warming {
  import opened Options
  import opened Programs
  import opened Graphs
  import opened SavedRecords
  import opened Steps
  import opened Checkpoints
  import M = Manifests

  // ---------------------------------------------------------------------------------------------
  // Loading a manifest

  /** A record that reads an input which is unset or has another value now is of no use. */
  predicate InputsDiffer(inputs: map<Key, Value>, s: Saved) {
    exists d :: d in s.deps && d.Input? && !(d in inputs && s.deps[d] == Val(inputs[d]))
  }

  /** The records found unusable by themselves. */
  function Unusable(inputs: map<Key, Value>, manifest: Checkpoint, damaged: set<Key>): set<Key> {
    set k | k in manifest && (k in damaged || InputsDiffer(inputs, manifest[k]))
  }

  /** `c` is what is left of the manifest: the queries that lead to nothing unusable. */
  ghost predicate Accepted(manifest: Checkpoint, bad: set<Key>, c: Checkpoint) {
    && (forall k :: k in c <==> k in manifest && k.Query? && !M.LeadsTo(LinksOf(manifest), k, bad))
    && (forall k :: k in c ==> c[k] == manifest[k])
  }

  /** Takes over a manifest. A dangling or inconsistent dependency, or a cycle, refuses it; a record
      whose payload is damaged or whose inputs differ is dropped with everything that depends on it. */
  method LoadCheckpoint(inputs: map<Key, Value>, manifest: Checkpoint, damaged: set<Key>)
    returns (loaded: Option<Checkpoint>, ghost order: map<Key, nat>)
    requires forall k :: k in manifest ==> k.Query? || k.Resource?
    ensures loaded.Some? <==> Linked(manifest) && !M.Cyclic(LinksOf(manifest))
    ensures loaded.Some? ==> Accepted(manifest, Unusable(inputs, manifest, damaged), loaded.value)
    ensures loaded.Some? ==> forall k, d :: k in loaded.value && d in loaded.value[k].deps && d.Query? ==>
      d in loaded.value && loaded.value[k].deps[d] == loaded.value[d].answer
    ensures loaded.Some? ==> forall k, d :: k in loaded.value && d in loaded.value[k].deps && d.Input? ==>
      d in inputs && loaded.value[k].deps[d] == Val(inputs[d])
    ensures forall prog :: loaded.Some? && AllSound(prog, manifest) ==> CheckpointOk(prog, loaded.value, order)
  {
    hide M.Cyclic; hide M.LeadsTo; hide SavedSound;
    order := map[];
    if !Linked(manifest) { return None, order; }
    var links := LinksOf(manifest);
    var ok: bool;
    ok, order := M.CheckAcyclic(links);
    if !ok { return None, order; }
    var invalid := M.Invalidate(links, Unusable(inputs, manifest, damaged));
    var c := map k | k in manifest && k.Query? && k !in invalid :: manifest[k];
    AcceptedUsable(inputs, manifest, damaged, invalid, order, c);
    return Some(c), order;
  }

  lemma AcceptedUsable(inputs: map<Key, Value>, manifest: Checkpoint, damaged: set<Key>, invalid: set<Key>,
      order: map<Key, nat>, c: Checkpoint)
    requires Linked(manifest) && (forall k :: k in manifest ==> k.Query? || k.Resource?)
    requires M.Ordered(LinksOf(manifest), order) && order.Keys == manifest.Keys
    requires c == map k | k in manifest && k.Query? && k !in invalid :: manifest[k]
    requires forall k :: k in invalid <==> M.LeadsTo(LinksOf(manifest), k, Unusable(inputs, manifest, damaged))
    requires forall k, d :: M.DependsOn(LinksOf(manifest), k, d) && k !in invalid ==> d !in invalid
    ensures forall k, d :: k in c && d in c[k].deps && d.Query? ==> d in c && c[k].deps[d] == c[d].answer
    ensures forall k, d :: k in c && d in c[k].deps && d.Input? ==> d in inputs && c[k].deps[d] == Val(inputs[d])
    ensures forall prog :: AllSound(prog, manifest) ==> CheckpointOk(prog, c, order)
  {
    hide M.LeadsTo; hide SavedSound;
    var links := LinksOf(manifest);
    forall k, d | k in c && d in c[k].deps
      ensures !d.Ambient? && (!d.Input? ==> d !in invalid && d in order && order[d] < order[k])
      ensures d.Input? ==> d in inputs && c[k].deps[d] == Val(inputs[d])
    {
      if d.Input? {
        NotUnusable(inputs, manifest, damaged, k);
      } else {
        assert M.DependsOn(links, k, d);
      }
    }
  }

  /** A record that leads to nothing unusable is itself usable. */
  lemma NotUnusable(inputs: map<Key, Value>, manifest: Checkpoint, damaged: set<Key>, k: Key)
    requires k in manifest && !M.LeadsTo(LinksOf(manifest), k, Unusable(inputs, manifest, damaged))
    ensures k !in damaged && !InputsDiffer(inputs, manifest[k])
  {
    assert M.Chain(LinksOf(manifest), [k]);
    assert [k][0] == k;
  }

  // ---------------------------------------------------------------------------------------------
  // When a restore is sound

  /** Storing a saved record keeps the invariant, under some ranking of the queries, exactly if every dependency
      carries the answer it was saved with, or, where nothing is evicted, has been contradicted and carries none.
      With records that can be evicted this is so where all of them are current. */
  lemma RestoreExactly(cfg: Config, w: World, g: Graph, q: Key, t: Trace, rec: Record)
    requires Inv(cfg, w, g) && SavedRecord(cfg, g, q, t, rec) && (cfg.Evicts() ==> AllCurrent(g.recs, g.rev))
    requires forall i :: 0 <= i < |t.keys| ==> t.keys[i] in g.recs
    ensures (exists rank: nat -> nat, top: nat :: Inv(cfg, w, Restored(g, q, t, rec, rank, top))) <==>
      forall i :: 0 <= i < |t.keys| ==> Supports(cfg, g, t.keys[i], t.answers[i])
  {
    assert |t.keys| == |t.answers|;
    hide Inv; hide Supports; hide AllCurrent; hide SavedRecord;
    if forall i :: 0 <= i < |t.keys| ==> Supports(cfg, g, t.keys[i], t.answers[i]) {
      var g' := RestoreStep(cfg, w, g, q, t, rec);
      assert Inv(cfg, w, Restored(g, q, t, rec, g'.rank, g'.top));
    }
    if rank: nat -> nat, top: nat :| Inv(cfg, w, Restored(g, q, t, rec, rank, top)) {
      forall i | 0 <= i < |t.keys| ensures Supports(cfg, g, t.keys[i], t.answers[i]) {
        RestoredSupports(cfg, w, g, Restored(g, q, t, rec, rank, top), q, t, rec, i);
      }
    }
  }

  lemma RestoredSupports(cfg: Config, w: World, g: Graph, g': Graph, q: Key, t: Trace, rec: Record, i: nat)
    requires Inv(cfg, w, g) && SavedRecord(cfg, g, q, t, rec) && (cfg.Evicts() ==> AllCurrent(g.recs, g.rev))
    requires g' == Restored(g, q, t, rec, g'.rank, g'.top) && Inv(cfg, w, g') && i < |t.keys| && t.keys[i] in g.recs
    ensures Supports(cfg, g, t.keys[i], t.answers[i])
  {
    var d, a := t.keys[i], t.answers[i];
    InvAt(cfg, w, g, d);
    EdgeAt(cfg, w, g', q, i);
    CurrentAt(cfg, w, g', q, i);
    if cfg.Evicts() {
      RecordedFresh(cfg, w, g, d);
      SameLeaves(g.recs, q, rec);
      FreshUnique(cfg.prog, RecordLeaves(g'.recs), RecordLeaves(g'.recs), d, Stands(d, g.recs[d]), a);
    }
  }

  /** Where every record is current, what it stands for is what the recorded leaves give. */
  lemma RecordedFresh(cfg: Config, w: World, g: Graph, d: Key)
    requires Inv(cfg, w, g) && cfg.Evicts() && AllCurrent(g.recs, g.rev) && d in g.recs
    ensures Fresh(cfg.prog, RecordLeaves(g.recs), d, Stands(d, g.recs[d]))
  {
    InvAt(cfg, w, g, d);
    if d.Query? {
      CurrentFresh(cfg, w, g, d);
    } else {
      LeafFresh(cfg.prog, RecordLeaves(g.recs), d, Stands(d, g.recs[d]));
    }
  }
}
