/** What the engine promises over whole runs. */
module Runs {
  import opened Options
  import opened Programs
  import opened Graphs
  import opened SavedRecords
  import opened Demand
  import opened Nesting
  import opened Causes
  import opened Restores
  import opened Requests
  import opened Databases
  import opened Checkpoints
  import opened Warming

  /** One public operation: a batch of input updates, a change of the outside world, a query, the loading of
      a saved checkpoint, some of whose records are found unusable. */
  datatype Op =
    | Update(updates: seq<(Key, Value)>)
    | Move(world: World)
    | Query(q: Key)
    | Load(manifest: Checkpoint, damaged: set<Key>)

  /** The inputs after one operation; a refused batch changes nothing. */
  ghost function InputsThen(inputs: map<Key, Value>, op: Op): map<Key, Value> {
    if op.Update? && BatchOk(op.updates) then WithUpdates(inputs, op.updates) else inputs
  }

  ghost function WorldThen(w: World, op: Op): World {
    if op.Move? then op.world else w
  }

  ghost function InputsAfter(ops: seq<Op>): map<Key, Value> {
    if ops == [] then map[] else InputsThen(InputsAfter(ops[..|ops| - 1]), ops[|ops| - 1])
  }

  ghost function WorldAfter(w: World, ops: seq<Op>): World {
    if ops == [] then w else WorldThen(WorldAfter(w, ops[..|ops| - 1]), ops[|ops| - 1])
  }

  /** Queries are asked about queries, and what is loaded was saved from a database over the same program. */
  ghost predicate Legal(cfg: Config, ops: seq<Op>) {
    forall i :: 0 <= i < |ops| ==> LegalOp(cfg, ops[i])
  }

  ghost predicate LegalOp(cfg: Config, op: Op) {
    match op
    case Query(q) => q.Query?
    case Load(manifest, _) => AllSound(cfg.prog, manifest) && forall k :: k in manifest ==> k.Query? || k.Resource?
    case _ => true
  }

  /** What a fresh database answers for `q` after the operations. */
  ghost predicate FreshAfter(cfg: Config, w: World, ops: seq<Op>, q: Key, v: Value) {
    Fresh(cfg.prog, WorldLeaves(cfg, WorldAfter(w, ops), InputsAfter(ops)), q, Val(v))
  }

  ghost predicate Consistent(cfg: Config, w: World, ops: seq<Op>, answers: seq<Option<Value>>) {
    && |answers| == |ops|
    && forall i :: 0 <= i < |ops| && ops[i].Query? && answers[i].Some? ==>
         FreshAfter(cfg, w, ops[..i], ops[i].q, answers[i].value)
  }

  /** What one operation makes of the record graph. A query is asked in a request that begins with it; after the
      request nothing but query records goes. */
  ghost predicate Follows(cfg: Config, w: World, op: Op, g: Graph, g': Graph) {
    match op
    case Update(_) =>
      g.rev <= g'.rev && g'.traces == g.traces && g.recs.Keys <= g'.recs.Keys && InputsOnly(g.recs, g'.recs)
    case Move(_) => g' == g
    case Load(_, _) => g'.rev == g.rev && g'.recs == g.recs && g'.traces == g.traces
    case Query(_) => exists done :: Asked(cfg, w, g, done) && Left(done, g')
  }

  /** `done` is a state of a request that began in `g`. */
  ghost predicate Asked(cfg: Config, w: World, g: Graph, done: Graph) {
    && Inv(cfg, w, done) && done.start == g.recs && done.began == g.traces && done.first == g.rev
    && BlindSince(done, Unknown(g.recs, g.known))
  }

  ghost predicate Left(done: Graph, g: Graph) {
    && g.rev == done.rev && g.traces == done.traces
    && (forall k :: k in g.recs ==> k in done.recs && g.recs[k] == done.recs[k])
    && (forall k :: k in done.recs && !k.Query? ==> k in g.recs)
  }

  /** `states[i]` is the record graph before operation `i`, the last one that after all of them. */
  ghost predicate Traced(cfg: Config, w: World, ops: seq<Op>, states: seq<Graph>) {
    && 0 < |states| <= |ops| + 1 && states[0].recs == map[]
    && (forall i :: 0 <= i < |states| ==> Between(cfg, WorldAfter(w, ops[..i]), InputsAfter(ops[..i]), states[i]))
    && (forall i :: 0 <= i < |states| - 1 ==> Follows(cfg, WorldAfter(w, ops[..i]), ops[i], states[i], states[i + 1]))
  }

  ghost predicate Between(cfg: Config, w: World, inputs: map<Key, Value>, g: Graph) {
    CoreInv(cfg, w, g) && InputsOf(g.recs) == inputs
  }

  /** The record graphs of the run. In each there is a record of all that a fresh evaluation of any query answered
      before reads, save what is untracked. */
  ghost predicate Recorded(cfg: Config, w: World, ops: seq<Op>, answers: seq<Option<Value>>, states: seq<Graph>) {
    && |answers| <= |ops| && |states| == |answers| + 1 && Traced(cfg, w, ops, states)
    && (forall i, j {:trigger states[j], ops[i]} ::
          0 <= i < j < |states| && ops[i].Query? && answers[i].Some? ==>
          ReadBefore(cfg, w, ops[..i], ops[i].q, states[j].recs.Keys))
  }

  /** All that a fresh evaluation of `q` reads after the operations is in `keys`, or untracked. */
  ghost predicate ReadBefore(cfg: Config, w: World, ops: seq<Op>, q: Key, keys: set<Key>) {
    ReadsWithin(cfg.prog, WorldLeaves(cfg, WorldAfter(w, ops), InputsAfter(ops)), q, keys)
  }

  /** Every query about a known program is answered if its calls go down `depth`, its inputs are set, and
      its resources can be observed or have a record. */
  ghost predicate Answered(cfg: Config, depth: nat -> nat, w: World, ops: seq<Op>, states: seq<Graph>,
      answers: seq<Option<Value>>)
  {
    && |answers| <= |ops| && |answers| < |states|
    && forall i :: 0 <= i < |answers| && Sure(cfg, depth, w, ops, i, states[i].recs.Keys) ==> answers[i].Some?
  }

  /** Operation `i` is a query bound to be answered. */
  ghost predicate Sure(cfg: Config, depth: nat -> nat, w: World, ops: seq<Op>, i: nat, leaves: set<Key>)
    requires i < |ops|
  {
    ops[i].Query? && ops[i].q.id in cfg.prog && AllSet(cfg, depth, w, ops[..i], leaves)
  }

  ghost predicate AllSet(cfg: Config, depth: nat -> nat, w: World, ops: seq<Op>, leaves: set<Key>) {
    CallsDown(cfg.prog, depth, WorldAfter(w, ops), leaves)
  }

  /** Every query that raised, raised for a cause in what its request found. */
  ghost predicate Explained(cfg: Config, w: World, ops: seq<Op>, states: seq<Graph>, answers: seq<Option<Value>>) {
    && |answers| <= |ops| && |answers| < |states|
    && forall i :: 0 <= i < |answers| && ops[i].Query? && answers[i].None? ==> Raised(cfg, w, ops, i, states[i])
  }

  ghost predicate Raised(cfg: Config, w: World, ops: seq<Op>, i: nat, g: Graph)
    requires i < |ops| && ops[i].Query?
  {
    exists c :: Held(ops[..i], c) && Faulted(cfg, WorldAfter(w, ops[..i]), OpeningAt(g, c), {}, ops[i].q)
  }

  /** What a request finds that begins in `g`, where `c` is loaded. */
  ghost function OpeningAt(g: Graph, c: Checkpoint): Opening {
    Opening(g.recs, g.traces, AnswersIn(c), g.rev)
  }

  lemma ExplainedSoFar(cfg: Config, w: World, ops: seq<Op>, states: seq<Graph>, g: Graph, answers: seq<Option<Value>>,
      r: Option<Value>)
    requires |answers| < |ops| && |states| == |answers| + 1 && Explained(cfg, w, ops, states, answers)
    requires ops[|answers|].Query? && r.None? ==> Raised(cfg, w, ops, |answers|, states[|answers|])
    ensures Explained(cfg, w, ops, states + [g], answers + [r])
  {
    hide Raised;
  }

  /** As long as nothing moves after the first query, every query is answered that a fresh database answers in which
      unset inputs and unobservable resources raise. */
  lemma StillAnswered(cfg: Config, w: World, ops: seq<Op>, states: seq<Graph>, answers: seq<Option<Value>>, i: nat)
    requires Explained(cfg, w, ops, states, answers) && Recorded(cfg, w, ops, answers, states)
    requires i < |answers| && ops[i].Query? && Still(ops[..i])
    requires Evaluable(cfg, WorldAfter(w, ops[..i]), OpeningAt(states[i], map[]), ops[i].q)
    ensures answers[i].Some?
  {
    TracedSteady(cfg, w, ops, states, i);
    var w' := WorldAfter(w, ops[..i]);
    forall c ensures !Faulted(cfg, w', OpeningAt(states[i], c), {}, ops[i].q) {
      var o, o' := OpeningAt(states[i], c), OpeningAt(states[i], map[]);
      assert Between(cfg, w', InputsAfter(ops[..i]), states[i]);
      SameReadable(cfg, w', o, o', ops[i].q);
      hide Steady; hide Evaluable;
      assert NothingMoved(cfg, w', o);
      NotFaulted(cfg, w', o, ops[i].q);
    }
  }

  lemma SameReadable(cfg: Config, w: World, o: Opening, o': Opening, q: Key)
    requires o.start == o'.start && Evaluable(cfg, w, o', q)
    ensures Evaluable(cfg, w, o, q)
  {
    var n: nat :| Eval(cfg.prog, Readable(cfg, w, o'), n, q).Some?;
    assert LeavesOf(cfg, w, o) == LeavesOf(cfg, w, o');
    EvalMonotone(cfg.prog, Readable(cfg, w, o'), Readable(cfg, w, o), n, n, q);
  }

  /** Once queries are asked, nothing moves any more. */
  ghost predicate Still(ops: seq<Op>) {
    forall i, j :: 0 <= i < j < |ops| && ops[i].Query? ==> !ops[j].Update? && !ops[j].Move?
  }

  /** Where and why a run was not followed further: in state `g` of the request, of a record of `c`, what is left
      of a checkpoint loaded before. */
  datatype Halt = Halt(stop: Stop, g: Graph, c: Checkpoint, evidence: Evidence)

  /** Query `n` of the operations was not followed to its end: its request began in `g`, and the reason holds. A
      query that would be sure to be answered stops only for one of the two reasons of `Spared`, and only if
      something moved after a query. */
  ghost predicate StoppedAt(cfg: Config, depth: nat -> nat, w: World, ops: seq<Op>, n: nat, g: Graph, h: Halt) {
    && n < |ops| && ops[n].Query? && Held(ops[..n], h.c) && Asked(cfg, WorldAfter(w, ops[..n]), g, h.g)
    && StopOk(cfg, WorldAfter(w, ops[..n]), h.g, h.c, h.stop, h.evidence)
    && (Sure(cfg, depth, w, ops, n, g.recs.Keys) ==> Spared(Some(h.stop), h.g.recs) && !Still(ops[..n]))
  }

  /** `c` was loaded, or nothing was. */
  ghost predicate Held(ops: seq<Op>, c: Checkpoint) {
    c == map[] || exists i :: 0 <= i < |ops| && ops[i].Load? && TakenFrom(c, ops[i].manifest)
  }

  lemma HeldOn(ops: seq<Op>, n: nat, c: Checkpoint)
    requires n < |ops| && (Held(ops[..n], c) || (ops[n].Load? && TakenFrom(c, ops[n].manifest)))
    ensures Held(ops[..n + 1], c)
  {
    hide TakenFrom;
    assert ops[..n + 1][n] == ops[n];
    if c != map[] && Held(ops[..n], c) {
      var i :| 0 <= i < n && ops[..n][i].Load? && TakenFrom(c, ops[..n][i].manifest);
      assert ops[..n + 1][i] == ops[..n][i];
    }
  }

  lemma AnsweredSoFar(cfg: Config, depth: nat -> nat, w: World, ops: seq<Op>, states: seq<Graph>, g: Graph,
      answers: seq<Option<Value>>, r: Option<Value>)
    requires |answers| < |ops| && |states| == |answers| + 1 && Answered(cfg, depth, w, ops, states, answers)
    requires Sure(cfg, depth, w, ops, |answers|, states[|answers|].recs.Keys) ==> r.Some?
    ensures Answered(cfg, depth, w, ops, states + [g], answers + [r])
  {
    hide AllSet;
  }

  lemma ConsistentSoFar(cfg: Config, w: World, ops: seq<Op>, i: nat, answers: seq<Option<Value>>, r: Option<Value>)
    requires i < |ops| && Consistent(cfg, w, ops[..i], answers)
    requires ops[i].Query? && r.Some? ==> FreshAfter(cfg, w, ops[..i], ops[i].q, r.value)
    ensures Consistent(cfg, w, ops[..i + 1], answers + [r])
  {
    hide FreshAfter;
    forall j | 0 <= j < i + 1 ensures ops[..i + 1][..j] == ops[..j] {}
    forall j | 0 <= j < i ensures ops[..i][..j] == ops[..j] && ops[..i][j] == ops[j] {}
  }

  lemma RecordedSoFar(cfg: Config, w: World, ops: seq<Op>, answers: seq<Option<Value>>, states: seq<Graph>,
      r: Option<Value>, g: Graph)
    requires Recorded(cfg, w, ops, answers, states) && |answers| < |ops|
    requires var n := |answers|;
             && Between(cfg, WorldAfter(w, ops[..n + 1]), InputsAfter(ops[..n + 1]), g)
             && Follows(cfg, WorldAfter(w, ops[..n]), ops[n], states[n], g)
             && (ops[n].Query? && r.Some? ==> ReadBefore(cfg, w, ops[..n], ops[n].q, g.recs.Keys))
    ensures Recorded(cfg, w, ops, answers + [r], states + [g])
  {
    hide InputsAfter; hide WorldAfter; hide ReadBefore; hide Follows; hide Between;
    var n := |answers|;
    FollowsKeeps(cfg, WorldAfter(w, ops[..n]), ops[n], states[n], g);
    forall i | 0 <= i < n && ops[i].Query? && answers[i].Some?
      ensures ReadBefore(cfg, w, ops[..i], ops[i].q, g.recs.Keys)
    {
      assert ReadBefore(cfg, w, ops[..i], ops[i].q, states[n].recs.Keys);
      StillRead(cfg, w, ops[..i], ops[i].q, states[n].recs.Keys, g.recs.Keys);
    }
  }

  /** No operation drops the record of a leaf. */
  lemma FollowsKeeps(cfg: Config, w: World, op: Op, g: Graph, g': Graph)
    requires Follows(cfg, w, op, g, g')
    ensures forall k :: k in g.recs && !k.Query? ==> k in g'.recs
  {
    if op.Query? {
      var done :| Asked(cfg, w, g, done) && Left(done, g');
      forall k | k in g.recs && !k.Query? ensures k in g'.recs { StartIn(cfg, w, done, k); }
    }
  }

  lemma StartIn(cfg: Config, w: World, g: Graph, k: Key)
    requires Inv(cfg, w, g) && k in g.start
    ensures k in g.recs
  {}

  lemma StillRead(cfg: Config, w: World, ops: seq<Op>, q: Key, keys: set<Key>, keys': set<Key>)
    requires ReadBefore(cfg, w, ops, q, keys) && forall k: Key :: k in keys && !k.Query? ==> k in keys'
    ensures ReadBefore(cfg, w, ops, q, keys')
  {}

  /** Before the first query there are only inputs; as long as nothing moves after it, nothing has moved. */
  lemma {:induction false} TracedSteady(cfg: Config, w: World, ops: seq<Op>, states: seq<Graph>, n: nat)
    requires Traced(cfg, w, ops, states) && n < |states|
    ensures (forall i :: 0 <= i < n ==> !ops[i].Query?) ==> OnlyInputs(states[n].recs)
    ensures Still(ops[..n]) ==>
      Steady(cfg, WorldAfter(w, ops[..n]), InputsAfter(ops[..n]), states[n].rev, states[n].recs)
  {
    hide InputsAfter; hide WorldAfter; hide CoreInv; hide Follows; hide Inv; hide SteadyAt;
    if n > 0 {
      hide Steady; hide OnlyInputs; hide InputsOf; hide WithUpdates; hide BatchOk; hide Still;
      var w', inputs := WorldAfter(w, ops[..n - 1]), InputsAfter(ops[..n - 1]);
      TracedSteady(cfg, w, ops, states, n - 1);
      NextOp(ops, n - 1, w);
      StillBefore(ops, n - 1);
      assert Follows(cfg, w', ops[n - 1], states[n - 1], states[n]);
      assert Between(cfg, w', inputs, states[n - 1]);
      StepSteady(cfg, w', inputs, ops[n - 1], states[n - 1], states[n]);
      if OnlyInputs(states[n].recs) {
        OnlyInputsSteady(cfg, WorldAfter(w, ops[..n]), InputsAfter(ops[..n]), states[n].rev, states[n].recs);
      }
    }
  }

  lemma StillBefore(ops: seq<Op>, n: nat)
    requires n < |ops|
    ensures Still(ops[..n + 1]) ==> Still(ops[..n])
    ensures Still(ops[..n + 1]) && (ops[n].Update? || ops[n].Move?) ==> forall i :: 0 <= i < n ==> !ops[i].Query?
  {
    forall i | 0 <= i < n ensures ops[..n + 1][i] == ops[..n][i] == ops[i] {}
    assert ops[..n + 1][n] == ops[n];
  }

  lemma StepSteady(cfg: Config, w: World, inputs: map<Key, Value>, op: Op, g: Graph, g': Graph)
    requires Follows(cfg, w, op, g, g') && Between(cfg, w, inputs, g)
    ensures !op.Query? && OnlyInputs(g.recs) ==> OnlyInputs(g'.recs)
    ensures (op.Query? || op.Load?) && Steady(cfg, w, inputs, g.rev, g.recs) ==> Steady(cfg, w, inputs, g'.rev, g'.recs)
  {
    hide SteadyAt;
    if op.Query? {
      var done :| Asked(cfg, w, g, done) && Left(done, g');
      assert SteadyOk(cfg, w, done);
    }
  }

  /** From-scratch consistency: over any sequence of updates, world changes, queries and loads, every value a
      query returns is the one a fresh database computes from the inputs and the world of that moment; and
      while the program's calls go down a rank, each is answered. A run over which nothing is loaded is followed to
      its end, and so is one of sure queries after whose first nothing moves; any other up to a query in which a
      restore stops, for one of the reasons of `Stop`, which `halt` shows to hold. */
  method Run(cfg: Config, w: World, ops: seq<Op>, pinned: Key -> set<Key>, ghost depth: nat -> nat)
    returns (answers: seq<Option<Value>>, stop: Option<Stop>, ghost states: seq<Graph>, ghost halt: Option<Halt>)
    requires cfg.Valid() && Legal(cfg, ops)
    ensures |answers| <= |ops| && Consistent(cfg, w, ops[..|answers|], answers)
    ensures Recorded(cfg, w, ops, answers, states) && Answered(cfg, depth, w, ops, states, answers)
    ensures Explained(cfg, w, ops, states, answers)
    ensures stop.None? ==> |answers| == |ops|
    ensures stop.Some? ==>
      && halt.Some? && halt.value.stop == stop.value && |states| == |answers| + 1
      && StoppedAt(cfg, depth, w, ops, |answers|, states[|answers|], halt.value)
    ensures (forall i :: 0 <= i < |ops| ==> !ops[i].Load?) ==> stop.None?
  {
    hide CallsDown; hide CoreInv; hide Inv; hide StopOk; hide CheckpointOk; hide InputsOf; hide AllSound;
    hide Fresh; hide Consistent; hide Answered; hide Recorded; hide WorldLeaves; hide InputsAfter;
    hide WorldAfter; hide Held; hide InputsThen; hide WorldThen; hide Steady; hide ReadsWithin; hide Spared;
    hide Still; hide Follows; hide Asked; hide Explained; hide Faulted;
    var db := new Database(cfg, w, pinned, depth);
    answers, stop, states, halt := [], None, [db.G()], None;
    NothingYet(cfg, depth, w, ops, db.G());
    for i := 0 to |ops|
      invariant db.Valid() && db.cfg == cfg && db.depth == depth && fresh(db) && stop.None?
      invariant db.Inputs() == InputsAfter(ops[..i]) && db.world == WorldAfter(w, ops[..i])
      invariant Held(ops[..i], db.checkpoint)
      invariant |answers| == i && |states| == i + 1 && states[i].recs == db.records && states[i] == db.G()
      invariant Consistent(cfg, w, ops[..i], answers)
      invariant Recorded(cfg, w, ops, answers, states) && Answered(cfg, depth, w, ops, states, answers)
      invariant Explained(cfg, w, ops, states, answers)
    {
      NextOp(ops, i, w);
      SteadyHere(cfg, w, ops, answers, states);
      var r: Option<Value>;
      ghost var done: Graph;
      r, stop, done := Perform(db, ops[i]);
      if stop.Some? {
        halt := Some(Halt(stop.value, done, db.checkpoint, db.evidence));
        NoStop(cfg, db.world, done, stop, db.checkpoint, db.evidence);
        NothingLoaded(ops[..i], db.checkpoint);
        return;
      }
      assert ops[i].Query? && r.None? ==> Raised(cfg, w, ops, i, states[i]);
      ExplainedSoFar(cfg, w, ops, states, db.G(), answers, r);
      HeldOn(ops, i, db.checkpoint);
      ConsistentSoFar(cfg, w, ops, i, answers, r);
      AnsweredSoFar(cfg, depth, w, ops, states, db.G(), answers, r);
      RecordedSoFar(cfg, w, ops, answers, states, r, db.G());
      answers, states := answers + [r], states + [db.G()];
    }
    assert ops[..|ops|] == ops;
  }

  lemma SteadyHere(cfg: Config, w: World, ops: seq<Op>, answers: seq<Option<Value>>, states: seq<Graph>)
    requires Recorded(cfg, w, ops, answers, states)
    ensures |answers| <= |ops| && |states| == |answers| + 1
    ensures Still(ops[..|answers|]) ==>
      var n := |answers|; Steady(cfg, WorldAfter(w, ops[..n]), InputsAfter(ops[..n]), states[n].rev, states[n].recs)
  {
    TracedSteady(cfg, w, ops, states, |answers|);
  }

  lemma OnlyInputsSteady(cfg: Config, w: World, inputs: map<Key, Value>, rev: nat, recs: map<Key, Record>)
    requires OnlyInputs(recs)
    ensures Steady(cfg, w, inputs, rev, recs)
  {}

  /** One operation. */
  method Perform(db: Database, op: Op) returns (r: Option<Value>, stop: Option<Stop>, ghost done: Graph)
    requires db.Valid() && LegalOp(db.cfg, op)
    modifies db
    ensures db.Valid()
    ensures db.Inputs() == InputsThen(old(db.Inputs()), op) && db.world == WorldThen(old(db.world), op)
    ensures Follows(db.cfg, old(db.world), op, old(db.G()), db.G())
    ensures db.checkpoint == old(db.checkpoint) || (op.Load? && TakenFrom(db.checkpoint, op.manifest))
    ensures r.Some? || stop.Some? ==> op.Query?
    ensures r.Some? ==>
      && Fresh(db.cfg.prog, WorldLeaves(db.cfg, db.world, db.Inputs()), op.q, Val(r.value))
      && ReadsWithin(db.cfg.prog, WorldLeaves(db.cfg, db.world, db.Inputs()), op.q, db.records.Keys)
    ensures op.Query? && op.q.id in db.cfg.prog && CallsDown(db.cfg.prog, db.depth, db.world, old(db.records).Keys) ==>
      && Fine(r.Some?, stop, done.recs) && (stop.None? ==> r.Some?)
      && (Steady(db.cfg, db.world, db.Inputs(), old(db.revision), old(db.records)) ==> r.Some?)
    ensures op.Query? && r.None? && stop.None? ==>
      Faulted(db.cfg, db.world, OpeningAt(old(db.G()), db.checkpoint), {}, op.q)
    ensures stop.Some? ==> r.None? && Asked(db.cfg, db.world, old(db.G()), done)
    ensures stop.Some? ==> StopOk(db.cfg, db.world, done, db.checkpoint, stop.value, db.evidence)
  {
    hide CallsDown; hide CoreInv; hide Inv; hide StopOk; hide CheckpointOk; hide InputsOf; hide AllSound;
    hide Fresh; hide WorldLeaves; hide Intact; hide Calm; hide BlindSince; hide Unknown; hide QueriesIn;
    hide Settled; hide RanForReasons; hide Now; hide Steady; hide ReadsWithin; hide InputsOnly;
    hide Faulted; hide InDepth; hide Evaluable; hide Readable; hide MarksSince; hide OnlyNeeded; hide OnlyInputs;
    r, stop, done := None, None, db.G();
    match op
    case Update(updates) =>
      var ok := db.SetMany(updates);
    case Move(world) =>
      db.WorldMoves(world);
    case Query(q) =>
      ghost var used;
      r, done, used := db.Get(q);
      assert Left(done, db.G());
      stop := db.stopped;
    case Load(manifest, damaged) =>
      var found, order := LoadCheckpoint(db.Inputs(), manifest, damaged);
      if found.Some? { db.TakeCheckpoint(found.value, order); }
  }

  /** What is left of a manifest. */
  ghost predicate TakenFrom(c: Checkpoint, manifest: Checkpoint) {
    forall k :: k in c ==> k in manifest && c[k] == manifest[k]
  }

  lemma NextOp(ops: seq<Op>, i: nat, w: World)
    requires i < |ops|
    ensures InputsAfter(ops[..i + 1]) == InputsThen(InputsAfter(ops[..i]), ops[i])
    ensures WorldAfter(w, ops[..i + 1]) == WorldThen(WorldAfter(w, ops[..i]), ops[i])
    ensures !ops[i].Update? ==> InputsAfter(ops[..i + 1]) == InputsAfter(ops[..i])
    ensures !ops[i].Move? ==> WorldAfter(w, ops[..i + 1]) == WorldAfter(w, ops[..i])
  {
    assert ops[..i + 1][..i] == ops[..i];
  }

  lemma NothingYet(cfg: Config, depth: nat -> nat, w: World, ops: seq<Op>, g: Graph)
    requires g.recs == map[] && CoreInv(cfg, w, g)
    ensures InputsAfter(ops[..0]) == map[] == InputsOf(map[]) && WorldAfter(w, ops[..0]) == w && Held(ops[..0], map[])
    ensures Consistent(cfg, w, ops[..0], []) && Recorded(cfg, w, ops, [], [g]) && Answered(cfg, depth, w, ops, [g], [])
    ensures Explained(cfg, w, ops, [g], [])
  {}

  /** Eviction is invisible: whatever the two limits, the same operations are answered alike, as far as both runs
      are followed. */
  method RunWithLimits(cfg: Config, cfg': Config, w: World, ops: seq<Op>, pinned: Key -> set<Key>,
      ghost depth: nat -> nat)
    returns (answers: seq<Option<Value>>, answers': seq<Option<Value>>, ghost states: seq<Graph>,
      ghost states': seq<Graph>)
    requires cfg.Valid() && cfg'.Valid() && cfg' == cfg.(limit := cfg'.limit) && Legal(cfg, ops)
    ensures Recorded(cfg, w, ops, answers, states) && Recorded(cfg', w, ops, answers', states')
    ensures |states| == |answers| + 1 && |states'| == |answers'| + 1 && |answers| <= |ops| && |answers'| <= |ops|
    ensures forall i :: 0 <= i < |answers| && i < |answers'| && ops[i].Query? ==>
      (answers[i].Some? && answers'[i].Some? ==> answers[i] == answers'[i])
    ensures forall i :: 0 <= i < |answers| && i < |answers'| && SureOfBoth(cfg, depth, w, ops, i, states, states') ==>
      answers[i].Some? && answers[i] == answers'[i]
    ensures forall i :: 0 <= i < |ops| && (i == |answers| || i == |answers'|) ==>
      ops[i].Query? && exists j :: 0 <= j < i && ops[j].Load?
    ensures forall i :: 0 <= i < |ops| && Still(ops[..i]) ==>
      && (i == |answers| ==> !Sure(cfg, depth, w, ops, i, states[i].recs.Keys))
      && (i == |answers'| ==> !Sure(cfg', depth, w, ops, i, states'[i].recs.Keys))
  {
    hide CallsDown; hide Recorded; hide StopOk; hide Still; hide Asked;
    ghost var halt, halt';
    var stop, stop';
    answers, stop, states, halt := Run(cfg, w, ops, pinned, depth);
    answers', stop', states', halt' := Run(cfg', w, ops, pinned, depth);
    SteadyHere(cfg, w, ops, answers, states);
    SteadyHere(cfg', w, ops, answers', states');
    if stop.Some? { LoadedBefore(cfg, depth, w, ops, |answers|, states[|answers|], halt.value); }
    if stop'.Some? { LoadedBefore(cfg', depth, w, ops, |answers'|, states'[|answers'|], halt'.value); }
    forall i | 0 <= i < |answers| && i < |answers'| && SureOfBoth(cfg, depth, w, ops, i, states, states')
      ensures answers[i].Some? && answers'[i].Some?
    {
      var keys, keys' := states[i].recs.Keys, states'[i].recs.Keys;
      MoreLeaves(cfg.prog, depth, WorldAfter(w, ops[..i]), keys * keys', keys);
      MoreLeaves(cfg.prog, depth, WorldAfter(w, ops[..i]), keys * keys', keys');
      assert Sure(cfg, depth, w, ops, i, keys) && Sure(cfg', depth, w, ops, i, keys');
    }
    forall i | 0 <= i < |answers| && i < |answers'| && ops[i].Query? && answers[i].Some? && answers'[i].Some?
      ensures answers[i] == answers'[i]
    {
      assert ops[..|answers|][..i] == ops[..i] == ops[..|answers'|][..i];
      AnsweredAlike(cfg, cfg', WorldAfter(w, ops[..i]), InputsAfter(ops[..i]), ops[i].q, answers[i].value,
        answers'[i].value);
    }
  }

  /** A query sure to be answered by what has a record in both runs. */
  ghost predicate SureOfBoth(cfg: Config, depth: nat -> nat, w: World, ops: seq<Op>, i: nat, states: seq<Graph>,
      states': seq<Graph>)
    requires i < |ops| && i < |states| && i < |states'|
  {
    Sure(cfg, depth, w, ops, i, states[i].recs.Keys * states'[i].recs.Keys)
  }

  /** A run stops only if something was loaded. */
  lemma LoadedBefore(cfg: Config, depth: nat -> nat, w: World, ops: seq<Op>, n: nat, g: Graph, h: Halt)
    requires StoppedAt(cfg, depth, w, ops, n, g, h)
    ensures exists j :: 0 <= j < n && ops[j].Load?
  {
    hide Sure; hide TakenFrom; hide Inv; hide Still; hide Asked;
    assert h.c != map[];
    var j :| 0 <= j < |ops[..n]| && ops[..n][j].Load? && TakenFrom(h.c, ops[..n][j].manifest);
    assert ops[j].Load?;
  }

  lemma MoreLeaves(prog: Prog, depth: nat -> nat, w: World, leaves: set<Key>, leaves': set<Key>)
    requires CallsDown(prog, depth, w, leaves) && leaves <= leaves'
    ensures CallsDown(prog, depth, w, leaves')
  {
    forall id, k | CallOk(prog, depth, w, leaves, id, k) ensures CallOk(prog, depth, w, leaves', id, k) {}
  }

  lemma AnsweredAlike(cfg: Config, cfg': Config, w: World, inputs: map<Key, Value>, q: Key, v: Value, v': Value)
    requires cfg' == cfg.(limit := cfg'.limit)
    requires Fresh(cfg.prog, WorldLeaves(cfg, w, inputs), q, Val(v))
    requires Fresh(cfg.prog, WorldLeaves(cfg', w, inputs), q, Val(v'))
    ensures v == v'
  {
    var l, l' := WorldLeaves(cfg, w, inputs), WorldLeaves(cfg', w, inputs);
    forall k ensures l(k) == l'(k) {
      if k.Resource? { assert WorldAnswer(cfg, w, k) == WorldAnswer(cfg', w, k); }
    }
    FreshUnique(cfg.prog, l, l', q, Val(v), Val(v'));
  }

  /** Saving in one process and resuming in another, over the same program. What is saved is all that can be, and
      meets every demand of the load, whatever its records `damaged` since; the resumed run keeps the promises of
      `Run`. If all inputs are set before the load and nothing moves after it, every sure query is answered. */
  method SaveAndResume(saving: Database, writable: set<Key>, cfg: Config, w: World, before: seq<Op>, damaged: set<Key>,
      after: seq<Op>, pinned: Key -> set<Key>, ghost depth: nat -> nat)
    returns (manifest: Checkpoint, answers: seq<Option<Value>>, stop: Option<Stop>, ghost states: seq<Graph>,
      ghost halt: Option<Halt>)
    requires saving.Valid() && cfg.Valid() && cfg.prog == saving.cfg.prog && Legal(cfg, before) && Legal(cfg, after)
    ensures Largest(saving.records, writable, manifest)
    ensures var ops := before + [Load(manifest, damaged)] + after;
            && Legal(cfg, ops) && |answers| <= |ops| && Consistent(cfg, w, ops[..|answers|], answers)
            && Recorded(cfg, w, ops, answers, states) && Answered(cfg, depth, w, ops, states, answers)
            && Explained(cfg, w, ops, states, answers)
            && (stop.None? ==> |answers| == |ops|)
            && (stop.Some? ==>
                  && halt.Some? && halt.value.stop == stop.value && |states| == |answers| + 1
                  && StoppedAt(cfg, depth, w, ops, |answers|, states[|answers|], halt.value)
                  && ((forall op :: op in before ==> !op.Query?) &&
                      (forall op :: op in after ==> !op.Update? && !op.Move?) ==>
                        !Sure(cfg, depth, w, ops, |answers|, states[|answers|].recs.Keys)))
  {
    hide AllSound; hide Consistent; hide Recorded; hide Answered; hide CoreInv; hide Eligible; hide Asked;
    hide Explained; hide WrittenDown; hide StopOk; hide Inv; hide Sure; hide Held; hide Largest;
    manifest := Save(saving, writable);
    SavedLargest(saving.records, writable, manifest);
    var ops := before + [Load(manifest, damaged)] + after;
    answers, stop, states, halt := Run(cfg, w, ops, pinned, depth);
    StillAfterLoad(before, Load(manifest, damaged), after, |answers|);
  }

  lemma SavedLargest(recs: map<Key, Record>, writable: set<Key>, manifest: Checkpoint)
    requires Largest(recs, writable, manifest)
    ensures forall k :: k in manifest ==> k.Query? || k.Resource?
  {
    forall k | k in manifest ensures k.Query? || k.Resource? { assert Eligible(recs, writable, k); }
  }

  lemma StillAfterLoad(before: seq<Op>, load: Op, after: seq<Op>, n: nat)
    requires load.Load? && n <= |before + [load] + after|
    ensures (forall op :: op in before ==> !op.Query?) && (forall op :: op in after ==> !op.Update? && !op.Move?) ==>
      Still((before + [load] + after)[..n])
  {
    var ops := before + [load] + after;
    forall i | 0 <= i < |ops|
      ensures ops[i] == if i < |before| then before[i] else if i == |before| then load else after[i - |before| - 1]
    {}
  }

  // ---------------------------------------------------------------------------------------------
  // Inside one request

  ghost predicate EdgePath(recs: map<Key, Record>, path: seq<Key>) {
    && (forall i :: 0 <= i < |path| ==> path[i].Query?)
    && (forall i :: 0 <= i < |path| - 1 ==> path[i] in recs && path[i + 1] in recs[path[i]].deps)
  }

  /** However bodies choose their calls, the recorded edges never close a cycle. */
  lemma {:induction false} NoCycle(cfg: Config, w: World, g: Graph, path: seq<Key>)
    requires CoreInv(cfg, w, g) && EdgePath(g.recs, path) && |path| >= 2
    ensures g.rank(path[|path| - 1].id) < g.rank(path[0].id) && path[0] != path[|path| - 1]
  {
    var q, d := path[0], path[1];
    assert TraceOk(cfg, g, q);
    var i :| 0 <= i < |g.traces[q].keys| && g.traces[q].keys[i] == d;
    assert EdgeOk(cfg, g, q, g.traces[q].keys[i], g.traces[q].answers[i]);
    if |path| > 2 {
      NoCycle(cfg, w, g, path[1..]);
    }
  }

  /** A settled query that did not run still holds every read it recorded. So a reader that handled
      a failure runs when the load heals; and if its value moves, so do its own readers. */
  lemma UnrunReadsHold(cfg: Config, w: World, g0: Graph, g: Graph, q: Key, i: nat)
    requires Inv(cfg, w, g) && g.start == g0.recs && g.began == g0.traces
    requires q.Query? && q in g0.recs && q in g0.traces && Settled(w, g, q) && g.runs[q] == 0
    requires i < |g0.traces[q].keys| == |g0.traces[q].answers|
    ensures var d := g0.traces[q].keys[i]; Settled(w, g, d) && Now(w, g, d) == g0.traces[q].answers[i]
  {
    assert SinceOk(w, g, q);
    assert TraceOk(cfg, g, q);
    assert ClosedOk(w, g, q, g.traces[q].keys[i], g.traces[q].answers[i]);
  }

  /** What makes a recorded dependency a reason: it has no record or no query object, is untracked or
      unconfirmed, had moved before the request began, or moved in it. A query recomputed to an equal
      value did none of these. */
  ghost predicate GivesReason(g: Graph, d: Key, since: nat) {
    d !in g.start || d in g.blind ||
    (d in g.recs &&
     (g.recs[d].untracked || g.recs[d].unconfirmed || g.start[d].changedAt > since ||
      (if d.Query? then g.recs[d].answer != g.start[d].answer else g.recs[d].changedAt != g.start[d].changedAt)))
  }

  /** The body of a tracked query that had a record ran only for a reason. */
  lemma RanForAReason(cfg: Config, w: World, g: Graph, q: Key)
    requires Inv(cfg, w, g) && q in g.start && q.Query? && !g.start[q].untracked && g.runs[q] > 0
    ensures exists d :: d in g.start[q].deps && GivesReason(g, d, g.start[q].verifiedAt)
  {
    assert RunOk(w, g, q);
    var d :| d in g.start[q].deps && Checked(w, g, d) && Moved(g, d, g.start[q].verifiedAt);
    if d in g.start { assert SinceOk(w, g, d); }
    assert GivesReason(g, d, g.start[q].verifiedAt);
  }

  lemma QuietIsCalm(cfg: Config, w: World, g0: Graph, g: Graph, keys: set<Key>)
    requires CoreInv(cfg, w, g0) && g.start == g0.recs && g.began == g0.traces
    requires Quiet(w, g0.recs, keys) && keys !! g.blind
    ensures Calm(w, g, keys, g0.rank)
  {
    forall q | q in keys && q.Query? ensures CalmAt(g, g0.rank, q) {
      assert TraceOk(cfg, g0, q);
      forall d | d in g0.recs[q].deps && d.Query? ensures g0.rank(d.id) < g0.rank(q.id) {
        var i :| 0 <= i < |g0.traces[q].keys| && g0.traces[q].keys[i] == d;
        assert EdgeOk(cfg, g0, q, g0.traces[q].keys[i], g0.traces[q].answers[i]);
      }
    }
  }

  /** In a quiet part of the graph no body runs. */
  lemma QuietRunsNothing(cfg: Config, w: World, g0: Graph, g: Graph, keys: set<Key>, k: Key)
    requires CoreInv(cfg, w, g0) && Inv(cfg, w, g) && g.start == g0.recs && g.began == g0.traces
    requires Quiet(w, g0.recs, keys) && keys !! g.blind && k in keys && k.Query?
    ensures g.runs[k] == 0
  {
    QuietIsCalm(cfg, w, g0, g, keys);
    CalmStill(cfg, w, g, keys, g0.rank, k);
  }

  /** What a request settled and left standing: tracked, confirmed, its query object at hand, with all it read. */
  ghost predicate Lasting(w: World, g: Graph, recs: map<Key, Record>, known: set<Key>, keys: set<Key>) {
    forall k :: k in keys ==>
      && Settled(w, g, k) && k in g.recs && k in recs && recs[k] == g.recs[k] && !Wavers(recs[k])
      && (k.Query? ==> k in known && forall d :: d in recs[k].deps ==> d in keys)
  }

  /** It is quiet for the next request in the same world. */
  lemma SettledIsQuiet(cfg: Config, w: World, g: Graph, recs: map<Key, Record>, known: set<Key>, keys: set<Key>)
    requires Inv(cfg, w, g) && Lasting(w, g, recs, known, keys)
    ensures Quiet(w, recs, keys) && keys !! Unknown(recs, known)
  {
    forall k | k in keys
      ensures k.Resource? ==> w.probe(k.id) == Some(recs[k].probe)
      ensures k.Query? ==> forall d :: d in recs[k].deps ==> d in keys && recs[d].changedAt <= recs[k].verifiedAt
    {
      assert StampsOk(g, k);
      if k.Resource? { assert ResourceOk(cfg, w, g, k); }
      if k.Query? {
        assert TraceOk(cfg, g, k);
        var t := g.traces[k];
        forall d | d in recs[k].deps ensures d in keys && recs[d].changedAt <= recs[k].verifiedAt {
          var i :| 0 <= i < |t.keys| && t.keys[i] == d;
          assert ClosedOk(w, g, k, t.keys[i], t.answers[i]);
        }
      }
    }
  }

  /** All of it together. */
  ghost function Lasts(w: World, g: Graph, recs: map<Key, Record>, known: set<Key>): set<Key> {
    set k | k in recs && exists keys: set<Key> :: k in keys && Lasting(w, g, recs, known, keys)
  }

  lemma LastsLongest(w: World, g: Graph, recs: map<Key, Record>, known: set<Key>)
    ensures Lasting(w, g, recs, known, Lasts(w, g, recs, known))
    ensures forall keys :: Lasting(w, g, recs, known, keys) ==> keys <= Lasts(w, g, recs, known)
  {
    var all := Lasts(w, g, recs, known);
    forall k | k in all
      ensures Settled(w, g, k) && k in g.recs && k in recs && recs[k] == g.recs[k] && !Wavers(recs[k])
      ensures k.Query? ==> k in known && forall d :: d in recs[k].deps ==> d in all
    {
      var keys: set<Key> :| k in keys && Lasting(w, g, recs, known, keys);
      forall d | d in keys ensures d in all {}
    }
  }

  /** Where nothing is evicted, read untracked or unobservable, and every query object is at hand, all that was
      settled lasts. */
  lemma AllLast(cfg: Config, w: World, g: Graph, keys: set<Key>)
    requires Inv(cfg, w, g) && cfg.Tracked() && forall r {:trigger w.probe(r)} :: w.probe(r).Some?
    requires Unknown(g.recs, g.known) == {} && keys == set k | k in g.recs && Settled(w, g, k)
    ensures Lasting(w, g, g.recs, g.known, keys)
  {
    forall k | k in keys
      ensures !Wavers(g.recs[k]) && (k.Query? ==> k in g.known && forall d :: d in g.recs[k].deps ==> d in keys)
    {
      assert StampsOk(g, k);
      if k.Resource? { assert ResourceOk(cfg, w, g, k); }
      if k.Query? {
        assert k !in Unknown(g.recs, g.known) && TraceOk(cfg, g, k);
        var t := g.traces[k];
        forall i | 0 <= i < |t.keys| ensures !t.keys[i].Ambient? {
          assert cfg.prog[k.id].step(t.answers[..i]) == Ask(t.keys[i]);
        }
        forall d | d in g.recs[k].deps ensures d in keys {
          var i :| 0 <= i < |t.keys| && t.keys[i] == d;
          assert ClosedOk(w, g, k, t.keys[i], t.answers[i]);
        }
      }
    }
  }

  /** Asking twice. What both requests answer they answer alike, and of what the first left standing the second runs
      nothing: `done` is the state the first ended in, and `recs` and `known` are what it left after eviction. */
  method GetTwice(db: Database, q: Key) returns (first: Option<Value>, second: Option<Value>, ghost done: Graph,
      ghost recs: map<Key, Record>, ghost known: set<Key>)
    requires db.Valid() && q.Query?
    modifies db
    ensures db.Valid() && Inv(db.cfg, db.world, done) && done.start == old(db.records)
    ensures recs.Keys <= done.recs.Keys && (!db.cfg.Evicts() ==> recs == done.recs && known == done.known)
    ensures first.Some? ==> Settled(db.world, done, q) && (second.Some? ==> second == first)
    ensures forall keys :: Lasting(db.world, done, recs, known, keys) ==>
      (q in keys ==> second.Some?) && forall k: Key :: k in keys && k.Query? ==> db.proof.runs[k] == 0
    ensures !db.cfg.Evicts() && db.cfg.Tracked() && Unknown(recs, known) == {} ==>
      (forall r {:trigger db.world.probe(r)} :: db.world.probe(r).Some?) ==>
        && (first.Some? ==> second == first)
        && forall k: Key :: k.Query? && Settled(db.world, done, k) ==> db.proof.runs[k] == 0
  {
    hide CoreInv; hide Inv; hide Quiet; hide Calm; hide Fresh; hide WorldLeaves; hide Intact; hide Trimmed;
    hide CallsDown; hide StopOk; hide RanForReasons; hide Unknown; hide CheckpointOk; hide Settled; hide Now;
    hide Lasting; hide Lasts; hide Steady; hide ReadsWithin; hide Spared; hide Config.Tracked;
    ghost var used;
    first, done, used := db.Get(q);
    recs, known := db.records, db.known;
    OnlyFewer(done.recs, recs, used, db.lastUsed, db.touches);
    ghost var keys := Lasts(db.world, done, recs, known);
    LastsLongest(db.world, done, recs, known);
    SettledIsQuiet(db.cfg, db.world, done, recs, known, keys);
    second := GetQuiet(db, q, keys);
    if first.Some? && second.Some? {
      AnsweredAlike(db.cfg, db.cfg, db.world, db.Inputs(), q, first.value, second.value);
    }
    if recs == done.recs && known == done.known && db.cfg.Tracked() && Unknown(recs, known) == {} &&
        forall r {:trigger db.world.probe(r)} :: db.world.probe(r).Some? {
      ghost var all := set k | k in done.recs && Settled(db.world, done, k);
      AllLast(db.cfg, db.world, done, all);
      QueriesStored(db.cfg, db.world, done);
    }
  }

  lemma OnlyFewer(recs: map<Key, Record>, recs': map<Key, Record>, used: map<Key, nat>, used': map<Key, nat>,
      touches: nat)
    requires Trimmed(recs, recs', used, used', touches)
    ensures recs'.Keys <= recs.Keys
  {}

  lemma QueriesStored(cfg: Config, w: World, g: Graph)
    requires Inv(cfg, w, g)
    ensures forall k: Key :: k.Query? && Settled(w, g, k) ==> k in g.recs
  {}

  /** A request in a quiet part of the records answers and runs nothing there. */
  method GetQuiet(db: Database, q: Key, ghost keys: set<Key>) returns (r: Option<Value>)
    requires db.Valid() && q.Query?
    requires keys !! Unknown(db.records, db.known) && Quiet(db.world, db.records, keys)
    modifies db
    ensures db.Valid() && db.world == old(db.world) && db.Inputs() == old(db.Inputs())
    ensures q in keys ==> r.Some?
    ensures r.Some? ==> Fresh(db.cfg.prog, WorldLeaves(db.cfg, db.world, db.Inputs()), q, Val(r.value))
    ensures forall k :: k in keys && k.Query? ==> db.proof.runs[k] == 0
  {
    hide CoreInv; hide Inv; hide Quiet; hide Calm; hide Fresh; hide WorldLeaves; hide Intact; hide Trimmed;
    hide CallsDown; hide StopOk; hide RanForReasons; hide Unknown; hide CheckpointOk; hide Settled; hide Now;
    hide InputsOf; hide BlindSince; hide Steady; hide ReadsWithin; hide Spared;
    db.calm := keys;
    ghost var g0, g, used := db.G(), db.G(), db.lastUsed;
    r, g, used := db.Get(q);
    NoneBlind(db.world, g, Unknown(g0.recs, g0.known), keys);
    QuietIsCalm(db.cfg, db.world, g0, g, keys);
    forall k | k in keys && k.Query? ensures g.runs[k] == 0 {
      QuietRunsNothing(db.cfg, db.world, g0, g, keys, k);
    }
  }

  /** What was stored, with its query object at hand, is not blind. */
  lemma NoneBlind(w: World, g: Graph, unknown: set<Key>, keys: set<Key>)
    requires BlindSince(g, unknown) && keys !! unknown && Quiet(w, g.start, keys)
    ensures keys !! g.blind
  {}

  lemma NothingLoaded(ops: seq<Op>, c: Checkpoint)
    requires Held(ops, c)
    ensures (forall i :: 0 <= i < |ops| ==> !ops[i].Load?) ==> c == map[]
  {}
}
