/** A checkpoint carries answers from one process to the next: what was saved is answered again from the
    store, running nothing, wherever the inputs and resources it was computed from read as they did.
 */
module Resuming {
  import opened Options
  import opened Programs
  import opened Graphs
  import opened SavedRecords
  import opened Steps
  import opened Demand
  import opened Nesting
  import opened Causes
  import opened Restores
  import opened Requests
  import opened Databases
  import opened Checkpoints
  import opened Warming
  import M = Manifests

  /** The saved queries that `q` leads to. */
  ghost function Beneath(manifest: Checkpoint, q: Key): set<Key> {
    set k | k in manifest && k.Query? && M.LeadsTo(LinksOf(manifest), q, {k})
  }

  /** Of what `q` was computed from, the new process reads what the old one did, and its captures pin the code. */
  ghost predicate ReadsAsSaved(cfg: Config, w: World, inputs: map<Key, Value>, pinned: set<Key>, manifest: Checkpoint,
      q: Key)
  {
    forall k, d :: k in Beneath(manifest, q) && d in manifest[k].deps ==>
      ReadAs(cfg, w, inputs, pinned, d, manifest[k].deps[d])
  }

  ghost predicate ReadAs(cfg: Config, w: World, inputs: map<Key, Value>, pinned: set<Key>, d: Key, a: Answer) {
    match d
    case Input(_) => d in inputs && a == Val(inputs[d])
    case Resource(_) => d in pinned && WorldAnswer(cfg, w, d) == a
    case Query(_) => d in pinned
    case Ambient(_) => true
  }

  /** `q` was saved as tracked, leads to nothing damaged, and what it was computed from reads as it did. */
  ghost predicate SavedFor(cfg: Config, w: World, inputs: map<Key, Value>, pinned: set<Key>, manifest: Checkpoint,
      damaged: set<Key>, q: Key)
    requires q in manifest
  {
    && !manifest[q].untracked && !M.LeadsTo(LinksOf(manifest), q, damaged)
    && ReadsAsSaved(cfg, w, inputs, pinned, manifest, q)
  }

  /** What `Save` guarantees of the records themselves. */
  ghost predicate WellSaved(manifest: Checkpoint) {
    && Linked(manifest)
    && (forall k :: k in manifest ==>
          (k.Query? || k.Resource?) && manifest[k].answer.Val? && (k.Resource? ==> manifest[k].deps == map[]))
    && (forall k, d :: k in manifest && d in manifest[k].deps ==>
          !d.Ambient? && (d in manifest ==> !manifest[d].untracked))
  }

  lemma SavedWell(cfg: Config, w: World, g: Graph, writable: set<Key>, manifest: Checkpoint)
    requires CoreInv(cfg, w, g) && Linked(manifest) && Largest(g.recs, writable, manifest)
    ensures WellSaved(manifest)
  {
    forall k | k in manifest
      ensures (k.Query? || k.Resource?) && manifest[k].answer.Val? && (k.Resource? ==> manifest[k].deps == map[])
    {
      assert StampsOk(g, k) && Eligible(g.recs, writable, k);
      if k.Query? { assert TraceOk(cfg, g, k); }
    }
    forall k, d | k in manifest && d in manifest[k].deps
      ensures !d.Ambient? && (d in manifest ==> !manifest[d].untracked)
    {
      assert Eligible(g.recs, writable, k) && d in g.recs[k].deps && StampsOk(g, d);
    }
  }

  /** A chain of saved dependencies from a tracked record stays among tracked records. */
  lemma {:induction false} ChainTracked(manifest: Checkpoint, p: seq<Key>)
    requires WellSaved(manifest) && M.Chain(LinksOf(manifest), p) && p[0] in manifest && !manifest[p[0]].untracked
    ensures var last := p[|p| - 1]; last in manifest && !manifest[last].untracked
  {
    if |p| > 1 {
      assert M.DependsOn(LinksOf(manifest), p[0], p[1]);
      M.ChainTail(LinksOf(manifest), p, 1);
      ChainTracked(manifest, p[1..]);
    }
  }

  /** What `k` leads to, what leads to `k` leads to. */
  lemma LeadsFurther(links: M.Links, q: Key, k: Key, p: seq<Key>)
    requires M.LeadsTo(links, q, {k}) && M.Chain(links, p) && p[0] == k
    ensures M.LeadsTo(links, q, {p[|p| - 1]})
  {
    var p0 :| M.Chain(links, p0) && p0[0] == q && p0[|p0| - 1] in {k};
    var r := p0 + p[1..];
    forall i | 0 <= i < |r| - 1 ensures M.DependsOn(links, r[i], r[i + 1]) {
      if i < |p0| - 1 {
        assert M.DependsOn(links, p0[i], p0[i + 1]);
      } else {
        var j := i - |p0| + 1;
        assert M.DependsOn(links, p[j], p[j + 1]) && r[i] == p[j] && r[i + 1] == p[j + 1];
      }
    }
    assert M.Chain(links, r) && r[0] == q && r[|r| - 1] == p[|p| - 1];
  }

  lemma LeadsInside(links: M.Links, q: Key, k: Key, bad: set<Key>)
    requires M.LeadsTo(links, q, {k}) && k in bad
    ensures M.LeadsTo(links, q, bad)
  {
    var p :| M.Chain(links, p) && p[0] == q && p[|p| - 1] in {k};
  }

  lemma BeneathTracked(manifest: Checkpoint, q: Key, k: Key)
    requires WellSaved(manifest) && q in manifest && !manifest[q].untracked && M.LeadsTo(LinksOf(manifest), q, {k})
    ensures k in manifest && !manifest[k].untracked
  {
    var p :| M.Chain(LinksOf(manifest), p) && p[0] == q && p[|p| - 1] in {k};
    ChainTracked(manifest, p);
  }

  /** What `q` leads to is accepted. */
  lemma BeneathAccepted(cfg: Config, w: World, inputs: map<Key, Value>, pinned: set<Key>, manifest: Checkpoint,
      damaged: set<Key>, q: Key, k: Key)
    requires WellSaved(manifest) && q in manifest && SavedFor(cfg, w, inputs, pinned, manifest, damaged, q)
    requires M.LeadsTo(LinksOf(manifest), q, {k})
    ensures !M.LeadsTo(LinksOf(manifest), k, Unusable(inputs, manifest, damaged))
  {
    var links, bad := LinksOf(manifest), Unusable(inputs, manifest, damaged);
    forall p | M.Chain(links, p) && p[0] == k ensures p[|p| - 1] !in bad {
      var last := p[|p| - 1];
      LeadsFurther(links, q, k, p);
      BeneathTracked(manifest, q, last);
      if last in damaged { LeadsInside(links, q, last, damaged); }
      forall d | d in manifest[last].deps && d.Input? ensures d in inputs && manifest[last].deps[d] == Val(inputs[d]) {
        assert last in Beneath(manifest, q);
        assert ReadAs(cfg, w, inputs, pinned, d, manifest[last].deps[d]);
      }
    }
  }

  lemma BeneathNext(manifest: Checkpoint, q: Key, k: Key, d: Key)
    requires WellSaved(manifest) && k in Beneath(manifest, q) && d in manifest[k].deps && !d.Input?
    ensures d in manifest && M.LeadsTo(LinksOf(manifest), q, {d}) && (d.Query? ==> d in Beneath(manifest, q))
  {
    var links := LinksOf(manifest);
    assert M.DependsOn(links, k, d);
    assert M.Chain(links, [k, d]);
    LeadsFurther(links, q, k, [k, d]);
  }

  lemma AcceptedIntact(cfg: Config, w: World, g: Graph, pinned: set<Key>, manifest: Checkpoint, damaged: set<Key>,
      c: Checkpoint, q: Key)
    requires WellSaved(manifest) && q in manifest && q.Query?
    requires SavedFor(cfg, w, InputsOf(g.recs), pinned, manifest, damaged, q)
    requires NotMetYet(g.recs, manifest, Beneath(manifest, q))
    requires Accepted(manifest, Unusable(InputsOf(g.recs), manifest, damaged), c)
    requires forall k :: k in g.recs ==> StampsOk(g, k)
    ensures NotMetYet(g.recs, c, Beneath(manifest, q))
    ensures Intact(cfg, w, g, c, pinned, Beneath(manifest, q)) && q in Beneath(manifest, q)
    ensures forall k :: k in Beneath(manifest, q) ==> k in c && c[k] == manifest[k]
  {
    hide M.LeadsTo;
    var part := Beneath(manifest, q);
    forall k | k in part ensures k in c && c[k] == manifest[k] && !c[k].untracked {
      BeneathTracked(manifest, q, k);
      BeneathAccepted(cfg, w, InputsOf(g.recs), pinned, manifest, damaged, q, k);
    }
    LeadsToItself(LinksOf(manifest), q);
    forall k, d | k in part && d in c[k].deps ensures Unmoved(cfg, w, g, c, pinned, part, d, c[k].deps[d]) {
      assert ReadAs(cfg, w, InputsOf(g.recs), pinned, d, manifest[k].deps[d]);
      if d.Input? {
        assert StampsOk(g, d);
      } else {
        BeneathNext(manifest, q, k, d);
        assert Concerns(manifest, part, d);
        assert manifest[k].deps[d] == manifest[d].answer;
      }
    }
  }

  lemma LeadsToItself(links: M.Links, q: Key)
    ensures M.LeadsTo(links, q, {q})
  {
    assert M.Chain(links, [q]) && [q][0] == q;
  }

  /** Saving in one process and asking in another. Whatever can be saved is; and a tracked query that was saved is
      answered with its saved value, and no body runs, if it leads to nothing damaged, of what it was computed from
      only inputs have a record yet, and all that reads as it did. */
  method SaveAndReuse(saving: Database, writable: set<Key>, damaged: set<Key>, db: Database, q: Key)
    returns (manifest: Checkpoint, r: Option<Value>)
    requires saving.Valid() && db.Valid() && saving != db && db.cfg.prog == saving.cfg.prog && q.Query?
    modifies db
    ensures Largest(saving.records, writable, manifest)
    ensures db.Valid() && db.world == old(db.world) && db.Inputs() == old(db.Inputs())
    ensures r.Some? ==> Fresh(db.cfg.prog, WorldLeaves(db.cfg, db.world, db.Inputs()), q, Val(r.value))
    ensures
      q in manifest && SavedFor(db.cfg, db.world, db.Inputs(), db.pinned(q), manifest, damaged, q) &&
      NotMetYet(old(db.records), manifest, Beneath(manifest, q)) ==>
        r.Some? && Val(r.value) == saving.records[q].answer && db.proof.runs == multiset{}
  {
    hide CoreInv; hide Fresh; hide WorldLeaves; hide Linked; hide Eligible; hide SavedFor; hide WellSaved;
    hide CheckpointOk; hide InputsOf; hide AllSound; hide NotMetYet; hide WrittenDown; hide Largest; hide Beneath;
    manifest := Save(saving, writable);
    SavedWell(saving.cfg, saving.world, saving.G(), writable, manifest);
    SavedAnswers(saving.records, writable, manifest);
    r := Reuse(manifest, damaged, db, q);
  }

  /** Loads a manifest and asks. */
  method Reuse(manifest: Checkpoint, damaged: set<Key>, db: Database, q: Key) returns (r: Option<Value>)
    requires WellSaved(manifest) && !M.Cyclic(LinksOf(manifest)) && AllSound(db.cfg.prog, manifest)
    requires db.Valid() && q.Query?
    modifies db
    ensures db.Valid() && db.world == old(db.world) && db.Inputs() == old(db.Inputs())
    ensures r.Some? ==> Fresh(db.cfg.prog, WorldLeaves(db.cfg, db.world, db.Inputs()), q, Val(r.value))
    ensures
      q in manifest && SavedFor(db.cfg, db.world, db.Inputs(), db.pinned(q), manifest, damaged, q) &&
      NotMetYet(old(db.records), manifest, Beneath(manifest, q)) ==>
        r.Some? && Val(r.value) == manifest[q].answer && db.proof.runs == multiset{}
  {
    hide CoreInv; hide Inv; hide Intact; hide CheckpointOk; hide Fresh; hide WorldLeaves; hide Linked;
    hide SavedFor; hide WellSaved; hide Accepted; hide M.Cyclic; hide StopOk; hide Calm; hide Trimmed;
    hide Unknown; hide CallsDown; hide BlindSince; hide Settled; hide RanForReasons; hide Now; hide InputsOf;
    hide StampsOk; hide AllSound; hide QueriesIn; hide OnlyInputs; hide Beneath; hide Steady; hide ReadsWithin;
    hide MarksSince; hide OnlyNeeded; hide InDepth; hide Faulted; hide Evaluable; hide Readable; hide NotMetYet;
    hide Fine; hide Spared; hide MarksOk; hide AnswersIn;
    forall k | k in manifest ensures k.Query? || k.Resource? { KindSaved(manifest, k); }
    var inputs := db.Inputs();
    AllLinked(manifest);
    var loaded, order := LoadCheckpoint(inputs, manifest, damaged);
    db.TakeCheckpoint(loaded.value, order);
    CoreStamps(db.cfg, db.world, db.G());
    db.part := Beneath(manifest, q);
    if q in manifest && SavedFor(db.cfg, db.world, inputs, db.pinned(q), manifest, damaged, q) &&
      NotMetYet(db.records, manifest, db.part)
    {
      AcceptedIntact(db.cfg, db.world, db.G(), db.pinned(q), manifest, damaged, loaded.value, q);
    }
    ghost var done, used;
    r, done, used := db.Get(q);
  }

  // ---------------------------------------------------------------------------------------------
  // What was just answered is saved

  /** What `q` was computed from, to any depth, as recorded, and `q` itself. */
  ghost function ReadFor(recs: map<Key, Record>, q: Key): set<Key> {
    set k | k in recs && M.LeadsTo(EdgesOf(recs), q, {k})
  }

  function EdgesOf(recs: map<Key, Record>): M.Links {
    map k | k in recs :: set d | d in recs[k].deps
  }

  /** Of the records `was`, those `q` was computed from stand in `recs`, tracked, confirmed, not failed and fit to be
      written. */
  ghost predicate AllFit(was: map<Key, Record>, recs: map<Key, Record>, writable: set<Key>, q: Key) {
    forall k :: k in ReadFor(was, q) ==> k in recs && recs[k] == was[k] && Fit(writable, k, recs[k])
  }

  predicate Fit(writable: set<Key>, k: Key, r: Record) {
    !r.untracked && !r.unconfirmed && (k.Input? || (k in writable && !r.answer.Failed?))
  }

  /** A part of what a request settled that stands, is fit to be saved, and has in it all it was computed from. */
  ghost predicate Savable(w: World, g: Graph, recs: map<Key, Record>, writable: set<Key>, keys: set<Key>) {
    forall k :: k in keys ==>
      && Settled(w, g, k) && k in g.recs && k in recs && recs[k] == g.recs[k] && Fit(writable, k, recs[k])
      && (k.Query? ==> forall d :: d in recs[k].deps ==> d in keys)
  }

  /** What the queries of `keys` were computed from reads the same in another process, whose captures pin the code. */
  ghost predicate ReadsAlike(cfg: Config, w: World, inputs: map<Key, Value>, pinned: set<Key>, recs: map<Key, Record>,
      keys: set<Key>)
  {
    forall k, d :: k in keys && k.Query? && k in recs && d in recs[k].deps && d in recs ==>
      ReadAs(cfg, w, inputs, pinned, d, recs[d].answer)
  }

  /** All of it is saved, with the answers it has. */
  lemma SettledSaved(cfg: Config, w: World, g: Graph, recs: map<Key, Record>, writable: set<Key>, keys: set<Key>,
      manifest: Checkpoint)
    requires Inv(cfg, w, g) && Savable(w, g, recs, writable, keys) && Largest(recs, writable, manifest)
    ensures forall k :: k in keys && !k.Input? ==> k in manifest && manifest[k] == WrittenDown(recs, k)
  {
    var saved := set k | k in keys && !k.Input?;
    forall k | k in saved ensures Eligible(recs, writable, k) {
      InvAt(cfg, w, g, k);
      forall d | d in recs[k].deps ensures d in recs && !recs[d].untracked && recs[d].changedAt <= recs[k].verifiedAt {
        ClosedDep(cfg, w, g, k, d);
      }
    }
    hide Inv; hide Settled;
    assert DependencyClosed(recs, saved);
  }

  lemma ClosedDep(cfg: Config, w: World, g: Graph, k: Key, d: Key)
    requires Inv(cfg, w, g) && k in g.recs && k.Query? && Settled(w, g, k) && d in g.recs[k].deps
    ensures d in g.recs && g.recs[d].changedAt <= g.recs[k].verifiedAt && Settled(w, g, d)
  {
    InvAt(cfg, w, g, k);
    var i :| 0 <= i < |g.traces[k].keys| && g.traces[k].keys[i] == d;
    EdgeAt(cfg, w, g, k, i);
  }

  lemma {:induction false} ReadSettled(cfg: Config, w: World, g: Graph, p: seq<Key>)
    requires Inv(cfg, w, g) && M.Chain(EdgesOf(g.recs), p) && p[0] in g.recs && Settled(w, g, p[0])
    ensures p[|p| - 1] in g.recs && Settled(w, g, p[|p| - 1])
  {
    if |p| > 1 {
      assert M.DependsOn(EdgesOf(g.recs), p[0], p[1]);
      M.ChainTail(EdgesOf(g.recs), p, 1);
      InvAt(cfg, w, g, p[0]);
      ClosedDep(cfg, w, g, p[0], p[1]);
      ReadSettled(cfg, w, g, p[1..]);
    }
  }

  /** What an answer was computed from was settled with it. */
  lemma ReadSavable(cfg: Config, w: World, g: Graph, recs: map<Key, Record>, writable: set<Key>, q: Key)
    requires Inv(cfg, w, g) && q in g.recs && Settled(w, g, q) && AllFit(g.recs, recs, writable, q)
    ensures Savable(w, g, recs, writable, ReadFor(g.recs, q)) && q in ReadFor(g.recs, q)
  {
    var edges, keys := EdgesOf(g.recs), ReadFor(g.recs, q);
    LeadsToItself(edges, q);
    forall k | k in keys
      ensures Settled(w, g, k) && (k.Query? ==> forall d :: d in g.recs[k].deps ==> d in keys)
    {
      var p :| M.Chain(edges, p) && p[0] == q && p[|p| - 1] in {k};
      ReadSettled(cfg, w, g, p);
      forall d | k.Query? && d in g.recs[k].deps ensures d in keys {
        ClosedDep(cfg, w, g, k, d);
        assert M.DependsOn(edges, k, d);
        assert M.Chain(edges, [k, d]);
        LeadsFurther(edges, q, k, [k, d]);
      }
    }
  }

  lemma {:induction false} ChainInside(recs: map<Key, Record>, keys: set<Key>, manifest: Checkpoint, p: seq<Key>)
    requires M.Chain(LinksOf(manifest), p) && p[0] in keys && !p[0].Input?
    requires forall k :: k in keys && !k.Input? ==> k in recs && k in manifest && manifest[k] == WrittenDown(recs, k)
    requires forall k, d :: k in keys && k in recs && d in recs[k].deps ==> d in keys
    ensures p[|p| - 1] in keys && !p[|p| - 1].Input?
  {
    if |p| > 1 {
      assert M.DependsOn(LinksOf(manifest), p[0], p[1]);
      M.ChainTail(LinksOf(manifest), p, 1);
      ChainInside(recs, keys, manifest, p[1..]);
    }
  }

  lemma SavableFor(cfg: Config, w: World, g: Graph, recs: map<Key, Record>, writable: set<Key>, keys: set<Key>,
      manifest: Checkpoint, damaged: set<Key>, cfg': Config, w': World, inputs': map<Key, Value>, pinned: set<Key>,
      q: Key)
    requires Inv(cfg, w, g) && Savable(w, g, recs, writable, keys) && Largest(recs, writable, manifest)
    requires q in keys && q.Query? && keys !! damaged && ReadsAlike(cfg', w', inputs', pinned, recs, keys)
    ensures q in manifest && SavedFor(cfg', w', inputs', pinned, manifest, damaged, q)
    ensures forall k :: Concerns(manifest, Beneath(manifest, q), k) ==> k in keys
  {
    SettledSaved(cfg, w, g, recs, writable, keys, manifest);
    SavableClosed(cfg, w, g, recs, writable, keys);
    hide Largest; hide Inv; hide Settled; hide LinksOf;
    var links := LinksOf(manifest);
    forall p: seq<Key> | M.Chain(links, p) && p[0] == q ensures p[|p| - 1] in keys && !p[|p| - 1].Input? {
      ChainInside(recs, keys, manifest, p);
    }
    forall k, d | k in Beneath(manifest, q) && d in manifest[k].deps
      ensures ReadAs(cfg', w', inputs', pinned, d, manifest[k].deps[d])
    {
      var p :| M.Chain(links, p) && p[0] == q && p[|p| - 1] in {k};
      assert k in keys;
    }
    forall k | k in Beneath(manifest, q) ensures k in keys {
      var p :| M.Chain(links, p) && p[0] == q && p[|p| - 1] in {k};
    }
  }

  lemma SavableClosed(cfg: Config, w: World, g: Graph, recs: map<Key, Record>, writable: set<Key>, keys: set<Key>)
    requires Inv(cfg, w, g) && Savable(w, g, recs, writable, keys)
    ensures forall k, d :: k in keys && k in recs && d in recs[k].deps ==> d in keys
  {
    forall k, d | k in keys && k in recs && d in recs[k].deps ensures d in keys { InvAt(cfg, w, g, k); }
  }

  /** Asking and saving. What was answered is saved with all it was computed from, as far as that was tracked,
      confirmed, not failed, fit to be written and not evicted. */
  method GetAndSave(db: Database, writable: set<Key>, q: Key)
    returns (first: Option<Value>, manifest: Checkpoint, ghost done: Graph)
    requires db.Valid() && q.Query?
    modifies db
    ensures db.Valid() && Inv(db.cfg, db.world, done) && done.start == old(db.records)
    ensures first.Some? ==> Settled(db.world, done, q) && q in done.recs && done.recs[q].answer == Val(first.value)
    ensures !db.cfg.Evicts() ==> db.records == done.recs
    ensures Largest(db.records, writable, manifest)
    ensures WellSaved(manifest) && !M.Cyclic(LinksOf(manifest)) && AllSound(db.cfg.prog, manifest)
    ensures first.Some? && AllFit(done.recs, db.records, writable, q) ==>
      q in ReadFor(done.recs, q) && forall k :: k in ReadFor(done.recs, q) && !k.Input? ==>
        k in manifest && manifest[k].answer == done.recs[k].answer
  {
    hide CoreInv; hide Fresh; hide WorldLeaves; hide Linked; hide Inv; hide CheckpointOk; hide InputsOf; hide AllSound;
    hide OnlyInputs; hide Largest; hide Intact; hide StopOk; hide Calm; hide Trimmed; hide Unknown; hide CallsDown;
    hide BlindSince; hide Settled; hide RanForReasons; hide Now; hide QueriesIn; hide Steady; hide ReadsWithin;
    hide AllFit; hide ReadFor; hide MarksSince; hide OnlyNeeded; hide InDepth; hide Faulted; hide Evaluable;
    hide WellSaved;
    hide Readable;
    ghost var used;
    first, done, used := db.Get(q);
    if first.Some? { AnswerNow(db.cfg, db.world, done, q); }
    manifest := SaveDone(db, writable, done, q);
  }

  /** Saving after a request that ended in `done`. */
  method SaveDone(db: Database, writable: set<Key>, ghost done: Graph, q: Key) returns (manifest: Checkpoint)
    requires db.Valid() && Inv(db.cfg, db.world, done)
    ensures Largest(db.records, writable, manifest)
    ensures WellSaved(manifest) && !M.Cyclic(LinksOf(manifest)) && AllSound(db.cfg.prog, manifest)
    ensures q in done.recs && Settled(db.world, done, q) && AllFit(done.recs, db.records, writable, q) ==>
      q in ReadFor(done.recs, q) && forall k :: k in ReadFor(done.recs, q) && !k.Input? ==>
        k in manifest && manifest[k].answer == done.recs[k].answer
  {
    hide CoreInv; hide Linked; hide Inv; hide AllSound; hide Largest; hide Savable; hide WellSaved; hide Settled;
    hide AllFit; hide ReadFor;
    manifest := Save(db, writable);
    SavedWell(db.cfg, db.world, db.G(), writable, manifest);
    if q in done.recs && Settled(db.world, done, q) && AllFit(done.recs, db.records, writable, q) {
      ReadSavable(db.cfg, db.world, done, db.records, writable, q);
      SavedAsDone(db.cfg, db.world, done, db.records, writable, ReadFor(done.recs, q), manifest);
    }
  }

  /** Asking, saving, and asking again in another process: what was answered is answered again from the store, running
      nothing, where all it was computed from was saved, reads as it did, and has no record there but the inputs. */
  method GetSaveGet(saving: Database, writable: set<Key>, damaged: set<Key>, db: Database, q: Key)
    returns (first: Option<Value>, manifest: Checkpoint, second: Option<Value>, ghost done: Graph)
    requires saving.Valid() && db.Valid() && saving != db && db.cfg.prog == saving.cfg.prog && q.Query?
    modifies saving, db
    ensures saving.Valid() && db.Valid() && db.world == old(db.world) && db.Inputs() == old(db.Inputs())
    ensures Inv(saving.cfg, saving.world, done) && done.start == old(saving.records)
    ensures first.Some? ==> q in done.recs && Settled(saving.world, done, q)
    ensures !saving.cfg.Evicts() ==> saving.records == done.recs
    ensures
      first.Some? && AllFit(done.recs, saving.records, writable, q) && ReadFor(done.recs, q) !! damaged &&
      ReadsAlike(db.cfg, db.world, db.Inputs(), db.pinned(q), done.recs, ReadFor(done.recs, q)) &&
      (forall k :: k in ReadFor(done.recs, q) && k in old(db.records) ==> k.Input?) ==>
        second == first && db.proof.runs == multiset{}
  {
    hide CoreInv; hide Fresh; hide WorldLeaves; hide SavedFor; hide WellSaved; hide Inv; hide CheckpointOk;
    hide InputsOf; hide AllSound; hide OnlyInputs; hide Largest; hide Settled; hide Beneath; hide Savable;
    hide ReadsAlike; hide M.Cyclic; hide AllFit; hide ReadFor;
    first, manifest, done := GetAndSave(saving, writable, q);
    ghost var recs := saving.records;
    second := Reuse(manifest, damaged, db, q);
    if first.Some? && AllFit(done.recs, recs, writable, q) && ReadFor(done.recs, q) !! damaged &&
      ReadsAlike(db.cfg, db.world, db.Inputs(), db.pinned(q), done.recs, ReadFor(done.recs, q)) &&
      (forall k :: k in ReadFor(done.recs, q) && k in old(db.records) ==> k.Input?)
    {
      FitSavedFor(saving.cfg, saving.world, done, recs, writable, manifest, damaged, db.cfg, db.world, db.Inputs(),
        db.pinned(q), q);
    }
  }

  lemma FitSavedFor(cfg: Config, w: World, g: Graph, recs: map<Key, Record>, writable: set<Key>, manifest: Checkpoint,
      damaged: set<Key>, cfg': Config, w': World, inputs': map<Key, Value>, pinned: set<Key>, q: Key)
    requires Inv(cfg, w, g) && q in g.recs && q.Query? && Settled(w, g, q) && AllFit(g.recs, recs, writable, q)
    requires Largest(recs, writable, manifest) && ReadFor(g.recs, q) !! damaged
    requires ReadsAlike(cfg', w', inputs', pinned, g.recs, ReadFor(g.recs, q))
    ensures q in manifest && SavedFor(cfg', w', inputs', pinned, manifest, damaged, q)
    ensures forall k :: Concerns(manifest, Beneath(manifest, q), k) ==> k in ReadFor(g.recs, q)
  {
    var keys := ReadFor(g.recs, q);
    ReadSavable(cfg, w, g, recs, writable, q);
    forall k, d | k in keys && k.Query? && k in recs && d in recs[k].deps && d in recs
      ensures ReadAs(cfg', w', inputs', pinned, d, recs[d].answer)
    {
      assert recs[k] == g.recs[k] && d in keys && recs[d] == g.recs[d];
    }
    hide Inv; hide Settled; hide Largest; hide ReadFor; hide Savable; hide SavedFor; hide AllFit;
    SavableFor(cfg, w, g, recs, writable, keys, manifest, damaged, cfg', w', inputs', pinned, q);
  }

  lemma SavedAsDone(cfg: Config, w: World, g: Graph, recs: map<Key, Record>, writable: set<Key>, keys: set<Key>,
      manifest: Checkpoint)
    requires Inv(cfg, w, g) && Savable(w, g, recs, writable, keys) && Largest(recs, writable, manifest)
    ensures forall k :: k in keys && !k.Input? ==>
      k in manifest && k in g.recs && manifest[k].answer == g.recs[k].answer
  {
    SettledSaved(cfg, w, g, recs, writable, keys, manifest);
  }

  lemma AllLinked(manifest: Checkpoint)
    requires WellSaved(manifest)
    ensures Linked(manifest)
  {}

  lemma SavedAnswers(recs: map<Key, Record>, writable: set<Key>, manifest: Checkpoint)
    requires Largest(recs, writable, manifest)
    ensures forall k :: k in manifest ==> k in recs && manifest[k].answer == recs[k].answer
  {
    forall k | k in manifest ensures k in recs && manifest[k].answer == recs[k].answer {
      assert Eligible(recs, writable, k);
    }
  }

  lemma KindSaved(manifest: Checkpoint, k: Key)
    requires WellSaved(manifest) && k in manifest
    ensures k.Query? || k.Resource?
  {}
}
