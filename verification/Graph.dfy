/** The record graph of a database and the invariant every step of the red-green engine keeps.

    A `Graph` is the whole state as one value: the records, the two counters, and the ghost facts
    the proofs need (what each execution read, a rank showing the edges acyclic, and what happened
    since the current request began).
 */
module Graphs {
  import opened Options
  import opened Programs

  /** A stored node. `deps` is kept in label order, the order verification visits it in.
      `checkedIn` is the request that last settled the record, `unconfirmed` marks a resource whose
      stored probe was contradicted by a raise nothing recorded. */
  datatype Record = Record(
    answer: Answer, changedAt: nat, verifiedAt: nat, deps: seq<Key>, untracked: bool,
    probe: int, checkedIn: int, unconfirmed: bool)

  /** What stays fixed over the life of a database. `outcome` is what a load answers when the probe
      reads the given value; `limit` is the query-node limit. */
  datatype Config = Config(prog: Prog, labelOf: Key -> int, outcome: (nat, int) -> Answer, limit: Option<nat>) {
    ghost predicate Valid() {
      && (forall r, p {:trigger outcome(r, p)} :: !outcome(r, p).Unobservable?)
      && (Evicts() ==> Tracked())
    }

    /** The limit can be exceeded, so that query records may be evicted. */
    predicate Evicts() {
      limit.Some? && |prog| > limit.value
    }

    /** No body ever reads untracked state. */
    ghost predicate Tracked() {
      forall id, h {:trigger prog[id].step(h)} :: id in prog ==>
        var m := prog[id].step(h); !(m.Ask? && m.key.Ambient?)
    }
  }

  /** The outside world during one request; an unobservable probe is None. */
  datatype World = World(probe: nat -> Option<int>, ambient: nat -> Value)

  /** `known` are the queries with a live query object. `traces`, `rank`, `top` are proof state.
      `start` and `began` hold the records and traces as the current request found them, `runs` the
      bodies this request ran to the end, `blind` the records that were without a query object when it
      found or restored them, `first` the revision then. `saved` are the answers the loaded checkpoint holds. */
  datatype Graph = Graph(
    rev: nat, req: int, recs: map<Key, Record>, known: set<Key>,
    traces: map<Key, Trace>, rank: nat -> nat, top: nat,
    start: map<Key, Record>, began: map<Key, Trace>, runs: multiset<Key>, blind: set<Key>,
    saved: map<Key, Answer>, first: nat)

  ghost function WorldAnswer(cfg: Config, w: World, k: Key): Answer
    requires k.Resource?
  {
    match w.probe(k.id)
    case None => Unobservable
    case Some(p) => cfg.outcome(k.id, p)
  }

  /** The inputs set so far and their values. */
  function InputsOf(recs: map<Key, Record>): map<Key, Value> {
    map k | k in recs && k.Input? :: if recs[k].answer.Val? then recs[k].answer.v else 0
  }

  /** The leaves a fresh database reads: the set inputs and the outside world. */
  ghost function WorldLeaves(cfg: Config, w: World, inputs: map<Key, Value>): Leaves {
    (k: Key) =>
      match k
      case Input(_) => if k in inputs then Some(Val(inputs[k])) else None
      case Resource(_) => Some(WorldAnswer(cfg, w, k))
      case Ambient(i) => Some(Val(w.ambient(i)))
      case Query(_) => None
  }

  /** What the record of `k` stands for: a contradicted resource stands for "unobservable". */
  function Stands(k: Key, r: Record): Answer {
    if r.unconfirmed then Unobservable else r.answer
  }

  /** The leaves as the records hold them. */
  ghost function RecordLeaves(recs: map<Key, Record>): Leaves {
    (k: Key) => if (k.Input? || k.Resource?) && k in recs then Some(Stands(k, recs[k])) else None
  }

  /** `k` has been brought up to date in the current request. */
  ghost predicate Settled(w: World, g: Graph, k: Key) {
    k.Ambient? ||
    (k in g.recs &&
     match k
     case Input(_) => true
     case Query(_) => g.recs[k].checkedIn == g.req
     case Resource(i) => g.recs[k].checkedIn == g.req || (g.recs[k].unconfirmed && w.probe(i).None?)
     case Ambient(_) => true)
  }

  ghost function Now(w: World, g: Graph, k: Key): Answer
    requires Settled(w, g, k)
  {
    if k.Ambient? then Val(w.ambient(k.id)) else Stands(k, g.recs[k])
  }

  // ---------------------------------------------------------------------------------------------
  // The invariant, one clause at a time

  ghost predicate StampsOk(g: Graph, k: Key)
    requires k in g.recs
  {
    var r := g.recs[k];
    && r.changedAt <= g.rev && r.verifiedAt <= g.rev && r.checkedIn <= g.req
    && !k.Ambient? && (r.unconfirmed ==> k.Resource?)
    && (k.Input? ==> r.answer.Val?) && (!k.Query? ==> !r.untracked && r.deps == [])
  }

  /** A record without a query object was restored: it is tracked, and blind. */
  ghost predicate KnownOk(g: Graph, k: Key)
    requires k in g.recs
  {
    k in g.known || (k in g.blind && !g.recs[k].untracked)
  }

  ghost predicate DepsOk(r: Record, t: Trace) {
    && (forall d :: d in r.deps <==> d in t.keys && !d.Ambient?)
    && (r.untracked <==> exists i :: 0 <= i < |t.keys| && t.keys[i].Ambient?)
  }

  /** Dependencies are listed by label, the order they are verified in. */
  ghost predicate InLabelOrder(labelOf: Key -> int, deps: seq<Key>) {
    forall i, j :: 0 <= i < j < |deps| ==> labelOf(deps[i]) <= labelOf(deps[j])
  }

  /** The stored value is the body applied to the answers it read. */
  ghost predicate TraceOk(cfg: Config, g: Graph, q: Key)
    requires q in g.recs
  {
    q.id in cfg.prog && q in g.traces && Replays(cfg.prog[q.id], g.traces[q], g.recs[q].answer)
    && DepsOk(g.recs[q], g.traces[q]) && InLabelOrder(cfg.labelOf, g.recs[q].deps)
  }

  /** An edge whose target has not moved past the reader still carries the answer the reader read;
      targets rank below readers. */
  ghost predicate EdgeOk(cfg: Config, g: Graph, q: Key, d: Key, a: Answer)
    requires q in g.recs
  {
    d.Ambient? ||
    (&& (d in g.recs && !g.recs[d].unconfirmed && g.recs[d].changedAt <= g.recs[q].verifiedAt ==>
           g.recs[d].answer == a)
     && (d.Query? ==> g.rank(d.id) < g.rank(q.id))
     && (!d.Query? || !cfg.Evicts() ==> d in g.recs))
  }

  /** What a settled query read is settled, still has the answer it read, and carries no later stamp. */
  ghost predicate ClosedOk(w: World, g: Graph, q: Key, d: Key, a: Answer)
    requires q in g.recs
  {
    g.recs[q].checkedIn == g.req ==>
      Settled(w, g, d) && Now(w, g, d) == a && (!d.Ambient? ==> g.recs[d].changedAt <= g.recs[q].verifiedAt)
  }

  /** Under eviction: a record verified at the current revision read what the recorded leaves give. */
  ghost predicate CurrentOk(cfg: Config, g: Graph, q: Key, d: Key, a: Answer)
    requires q in g.recs
  {
    cfg.Evicts() && g.recs[q].verifiedAt == g.rev ==> Fresh(cfg.prog, RecordLeaves(g.recs), d, a)
  }

  ghost predicate ResourceOk(cfg: Config, w: World, g: Graph, r: Key)
    requires r in g.recs && r.Resource?
  {
    && g.recs[r].answer == cfg.outcome(r.id, g.recs[r].probe)
    && (g.recs[r].checkedIn == g.req ==> !g.recs[r].unconfirmed && w.probe(r.id) == Some(g.recs[r].probe))
  }

  /** What may have happened to `k` since the request began: nothing, or it was settled. A record that is
      new and not settled was restored. A query's stamp moved exactly if its value did, and only by running; a
      resource whose probe still reads as recorded kept its stamp. */
  ghost predicate SinceOk(w: World, g: Graph, k: Key)
    requires k in g.recs
  {
    && (k.Input? ==> k in g.start)
    && (k !in g.start && !Settled(w, g, k) ==> k.Query? && k in g.saved && g.recs[k].answer == g.saved[k])
    && (k in g.start && (k.Input? || !Settled(w, g, k)) ==> g.recs[k] == g.start[k])
    && (k in g.start && k.Query? ==>
          && (g.recs[k].answer == g.start[k].answer <==> g.recs[k].changedAt == g.start[k].changedAt)
          && (g.runs[k] == 0 ==>
                && g.recs[k].changedAt == g.start[k].changedAt
                && k in g.began && k in g.traces && g.traces[k] == g.began[k]))
    && (k in g.start && k.Resource? && !g.start[k].unconfirmed && w.probe(k.id) == Some(g.start[k].probe) ==>
          !g.recs[k].unconfirmed && g.recs[k].changedAt == g.start[k].changedAt)
  }

  /** `d` gives a reader last verified at `since` a reason to run again. */
  ghost predicate Moved(g: Graph, d: Key, since: nat) {
    d !in g.start || d in g.blind ||
    (d in g.recs && (g.recs[d].untracked || g.recs[d].unconfirmed || g.recs[d].changedAt > since))
  }

  /** What a verification has a verdict on: it is settled, or has no record it could settle alone. */
  ghost predicate Checked(w: World, g: Graph, d: Key) {
    Settled(w, g, d) || d !in g.start || d in g.blind
  }

  /** Early cutoff: a body that ran ran once, and had a reason to. */
  ghost predicate RunOk(w: World, g: Graph, q: Key) {
    g.runs[q] > 0 ==>
      && g.runs[q] == 1 && q.Query? && Settled(w, g, q)
      && (q in g.start && !g.start[q].untracked ==>
            exists d :: d in g.start[q].deps && Checked(w, g, d) && Moved(g, d, g.start[q].verifiedAt))
  }

  ghost predicate RunsOk(w: World, g: Graph) {
    forall q :: RunOk(w, g, q)
  }

  /** `k`, which had a record or was restored, has been found changed since the request began. */
  ghost predicate Shifted(w: World, g: Graph, k: Key) {
    && Settled(w, g, k) && k in g.recs && (k in g.start || k in g.saved)
    && (g.recs[k].changedAt > g.first || (k in g.start && g.recs[k].unconfirmed && !g.start[k].unconfirmed))
  }

  /** The revision moved only if something did. */
  ghost predicate BumpOk(w: World, g: Graph) {
    g.rev > g.first ==> exists k :: Shifted(w, g, k)
  }

  /** The record of `k` is what a fresh database would have it, as of revision `rev`. */
  ghost predicate SteadyAt(cfg: Config, w: World, inputs: map<Key, Value>, rev: nat, k: Key, r: Record) {
    && (k.Resource? ==> !r.unconfirmed && w.probe(k.id) == Some(r.probe))
    && (k.Query? ==> r.verifiedAt == rev && Fresh(cfg.prog, WorldLeaves(cfg, w, inputs), k, r.answer))
  }

  /** Nothing has moved since any of the records was made. */
  ghost predicate Steady(cfg: Config, w: World, inputs: map<Key, Value>, rev: nat, recs: map<Key, Record>) {
    forall k :: k in recs ==> SteadyAt(cfg, w, inputs, rev, k, recs[k])
  }

  ghost predicate SteadyStart(cfg: Config, w: World, g: Graph) {
    Steady(cfg, w, InputsOf(g.start), g.first, g.start)
  }

  /** Where the request found nothing moved, nothing moves. */
  ghost predicate SteadyOk(cfg: Config, w: World, g: Graph) {
    SteadyStart(cfg, w, g) ==> g.rev == g.first && Steady(cfg, w, InputsOf(g.start), g.first, g.recs)
  }

  ghost predicate QueriesOk(cfg: Config, w: World, g: Graph) {
    forall q :: q in g.recs && q.Query? ==> TraceOk(cfg, g, q)
  }

  ghost predicate EdgesOk(cfg: Config, w: World, g: Graph)
    requires QueriesOk(cfg, w, g)
  {
    forall q, i {:trigger g.traces[q].keys[i]} :: q in g.recs && q.Query? && 0 <= i < |g.traces[q].keys| ==>
      EdgeOk(cfg, g, q, g.traces[q].keys[i], g.traces[q].answers[i])
  }

  ghost predicate CurrentEdgesOk(cfg: Config, w: World, g: Graph)
    requires QueriesOk(cfg, w, g)
  {
    forall q, i {:trigger g.traces[q].keys[i]} :: q in g.recs && q.Query? && 0 <= i < |g.traces[q].keys| ==>
      CurrentOk(cfg, g, q, g.traces[q].keys[i], g.traces[q].answers[i])
  }

  ghost predicate ClosedEdgesOk(cfg: Config, w: World, g: Graph)
    requires QueriesOk(cfg, w, g)
  {
    forall q, i {:trigger g.traces[q].keys[i]} :: q in g.recs && q.Query? && 0 <= i < |g.traces[q].keys| ==>
      ClosedOk(w, g, q, g.traces[q].keys[i], g.traces[q].answers[i])
  }

  /** Holds between requests. */
  ghost predicate CoreInv(cfg: Config, w: World, g: Graph) {
    && cfg.Valid() && g.req >= -1
    && (forall k :: k in g.recs ==> StampsOk(g, k))
    && (forall r :: r in g.recs && r.Resource? ==> g.recs[r].answer == cfg.outcome(r.id, g.recs[r].probe))
    && (forall k :: k in g.recs && k.Query? ==> KnownOk(g, k))
    && (forall i: nat {:trigger g.rank(i)} :: g.rank(i) < g.top)
    && QueriesOk(cfg, w, g)
    && EdgesOk(cfg, w, g)
    && CurrentEdgesOk(cfg, w, g)
  }

  /** Holds at every step inside a request. */
  ghost predicate Inv(cfg: Config, w: World, g: Graph) {
    && CoreInv(cfg, w, g) && g.first <= g.rev && g.req >= 0
    && (forall r :: r in g.recs && r.Resource? ==> ResourceOk(cfg, w, g, r))
    && ClosedEdgesOk(cfg, w, g)
    && (forall k :: k in g.start ==> k in g.recs)
    && (forall k :: k in g.recs ==> SinceOk(w, g, k))
    && RunsOk(w, g) && BumpOk(w, g) && SteadyOk(cfg, w, g)
  }

  // ---------------------------------------------------------------------------------------------
  // Two states of one request

  /** What any step of a request keeps. A record that is new and not settled was restored, and so was
      what has become blind. */
  ghost predicate Step(w: World, g: Graph, g': Graph) {
    && g'.req == g.req && g.rev <= g'.rev && g'.start == g.start && g'.began == g.began
    && g'.saved == g.saved && g'.first == g.first
    && g.blind <= g'.blind && (forall k :: k in g'.blind ==> k in g.blind || (k in g.saved && k !in g.start))
    && (forall k :: k in g.recs ==> k in g'.recs)
    && (forall k :: Settled(w, g, k) ==> Same(g, g', k))
    && (forall k :: k in g'.recs && !Settled(w, g', k) ==>
          if k in g.recs then g'.recs[k] == g.recs[k] else k in g.saved && g'.recs[k].answer == g.saved[k])
    && (g'.rev == g.rev ==> forall k :: k in g.recs ==>
          Stands(k, g'.recs[k]) == Stands(k, g.recs[k]) && g'.recs[k].answer == g.recs[k].answer)
  }

  ghost predicate Same(g: Graph, g': Graph, k: Key) {
    && (k in g.recs <==> k in g'.recs)
    && (k in g.recs ==> g'.recs[k] == g.recs[k])
    && (k in g.recs && k in g.traces ==> k in g'.traces && g'.traces[k] == g.traces[k])
  }

  ghost predicate Kept(g: Graph, g': Graph, keys: set<Key>) {
    forall k :: k in keys ==> Same(g, g', k)
  }

  lemma StepTransitive(w: World, g: Graph, g': Graph, g'': Graph)
    requires Step(w, g, g') && Step(w, g', g'')
    ensures Step(w, g, g'')
    ensures forall k :: Settled(w, g, k) ==> Settled(w, g', k)
  {
    forall k | Settled(w, g, k) ensures Settled(w, g', k) && Same(g, g'', k) {
      assert Same(g, g', k);
      assert Same(g', g'', k);
    }
  }

  lemma InputsKept(cfg: Config, w: World, g: Graph)
    requires Inv(cfg, w, g)
    ensures InputsOf(g.recs) == InputsOf(g.start)
  {
    forall k: Key | k.Input? ensures (k in g.recs <==> k in g.start) && (k in g.recs ==> g.recs[k] == g.start[k]) {
      if k in g.recs { assert SinceOk(w, g, k); }
    }
  }

  // ---------------------------------------------------------------------------------------------
  // Settled nodes are fresh

  /** Everything settled has the value a fresh database computes, at depth one past its rank. */
  lemma {:induction false} SettledFresh(cfg: Config, w: World, g: Graph, l: Leaves, k: Key, n: nat)
    requires Inv(cfg, w, g) && Settled(w, g, k)
    requires forall d :: Settled(w, g, d) && !d.Query? && (cfg.Evicts() ==> !d.Ambient?) ==> l(d) == Some(Now(w, g, d))
    requires cfg.Evicts() ==> !k.Ambient?
    requires k.Query? ==> n > g.rank(k.id)
    ensures Eval(cfg.prog, l, n, k) == Some(Now(w, g, k))
    decreases n
  {
    hide SinceOk; hide BumpOk; hide RunOk; hide CurrentOk; hide KnownOk;
    if k.Query? {
      var t := g.traces[k];
      var b := cfg.prog[k.id];
      assert TraceOk(cfg, g, k);
      forall i | 0 <= i < |t.keys| ensures Eval(cfg.prog, l, n - 1, t.keys[i]) == Some(t.answers[i]) {
        var d := t.keys[i];
        assert EdgeOk(cfg, g, k, d, t.answers[i]);
        assert ClosedOk(w, g, k, d, t.answers[i]);
        assert b.step(t.answers[..i]) == Ask(d);
        SettledFresh(cfg, w, g, l, d, n - 1);
      }
      ReplayRuns(cfg.prog, l, n - 1, b, t, g.recs[k].answer, 0);
      assert t.answers[..0] == [];
      assert StampsOk(g, k);
    }
  }

  /** Settled leaves are what the world holds. */
  lemma LeafNow(cfg: Config, w: World, g: Graph, d: Key)
    requires Inv(cfg, w, g) && Settled(w, g, d) && !d.Query?
    ensures WorldLeaves(cfg, w, InputsOf(g.recs))(d) == Some(Now(w, g, d))
  {
    match d
    case Resource(i) =>
      assert ResourceOk(cfg, w, g, d);
      assert Now(w, g, d) == WorldAnswer(cfg, w, d);
    case Input(_) => assert StampsOk(g, d);
    case Ambient(_) =>
  }

  lemma SettledFreshInWorld(cfg: Config, w: World, g: Graph, k: Key)
    requires Inv(cfg, w, g) && Settled(w, g, k) && !k.Ambient?
    ensures Fresh(cfg.prog, WorldLeaves(cfg, w, InputsOf(g.recs)), k, Now(w, g, k))
  {
    var l := WorldLeaves(cfg, w, InputsOf(g.recs));
    forall d | Settled(w, g, d) && !d.Query? ensures l(d) == Some(Now(w, g, d)) { LeafNow(cfg, w, g, d); }
    var n := if k.Query? then g.rank(k.id) + 1 else 0;
    SettledFresh(cfg, w, g, l, k, n);
  }

  /** What from-scratch evaluation of a settled node reads has a record. */
  lemma {:induction false} SettledReads(cfg: Config, w: World, g: Graph, k: Key, n: nat, r: Key)
    requires Inv(cfg, w, g) && Settled(w, g, k)
    requires r in LeavesRead(cfg.prog, WorldLeaves(cfg, w, InputsOf(g.recs)), n, k)
    ensures !r.Query? && (r.Ambient? || r in g.recs)
    decreases n, 0, 0
  {
    if k.Query? {
      assert TraceOk(cfg, g, k);
      assert g.traces[k].answers[..0] == [];
      BodyReads(cfg, w, g, k, n - 1, 0, r);
    }
  }

  lemma {:induction false} BodyReads(cfg: Config, w: World, g: Graph, q: Key, n: nat, i: nat, r: Key)
    requires Inv(cfg, w, g) && Settled(w, g, q) && q.Query? && q.id in cfg.prog && TraceOk(cfg, g, q)
    requires i <= |g.traces[q].keys|
    requires var l := WorldLeaves(cfg, w, InputsOf(g.recs));
             r in BodyLeaves(cfg.prog, l, n, cfg.prog[q.id], g.traces[q].answers[..i])
    ensures !r.Query? && (r.Ambient? || r in g.recs)
    decreases n, 1, |g.traces[q].keys| - i
  {
    var t, l := g.traces[q], WorldLeaves(cfg, w, InputsOf(g.recs));
    ReplayAt(cfg.prog[q.id], t, g.recs[q].answer, i);
    if i < |t.keys| {
      var d := t.keys[i];
      SettledRead(cfg, w, g, q, i);
      if r in LeavesRead(cfg.prog, l, n, d) {
        SettledReads(cfg, w, g, d, n, r);
      } else {
        var a := Eval(cfg.prog, l, n, d).value;
        assert Fresh(cfg.prog, l, d, a);
        FreshUnique(cfg.prog, l, l, d, a, t.answers[i]);
        assert t.answers[..i] + [a] == t.answers[..i + 1];
        BodyReads(cfg, w, g, q, n, i + 1, r);
      }
    }
  }

  /** What a settled query read is settled and fresh. */
  lemma SettledRead(cfg: Config, w: World, g: Graph, q: Key, i: nat)
    requires Inv(cfg, w, g) && Settled(w, g, q) && q.Query? && TraceOk(cfg, g, q) && i < |g.traces[q].keys|
    ensures Settled(w, g, g.traces[q].keys[i])
    ensures Fresh(cfg.prog, WorldLeaves(cfg, w, InputsOf(g.recs)), g.traces[q].keys[i], g.traces[q].answers[i])
  {
    var d, l := g.traces[q].keys[i], WorldLeaves(cfg, w, InputsOf(g.recs));
    assert ClosedOk(w, g, q, d, g.traces[q].answers[i]);
    if d.Ambient? {
      assert Eval(cfg.prog, l, 0, d) == Some(g.traces[q].answers[i]);
    } else {
      SettledFreshInWorld(cfg, w, g, d);
    }
  }

  lemma SettledReadsWithin(cfg: Config, w: World, g: Graph, k: Key)
    requires Inv(cfg, w, g) && Settled(w, g, k)
    ensures ReadsWithin(cfg.prog, WorldLeaves(cfg, w, InputsOf(g.recs)), k, g.recs.Keys)
  {
    forall n: nat, r | r in LeavesRead(cfg.prog, WorldLeaves(cfg, w, InputsOf(g.recs)), n, k)
      ensures !r.Query? && (r.Ambient? || r in g.recs)
    {
      SettledReads(cfg, w, g, k, n, r);
    }
  }

  lemma SettledFreshInRecords(cfg: Config, w: World, g: Graph, k: Key)
    requires Inv(cfg, w, g) && Settled(w, g, k) && cfg.Evicts() && !k.Ambient?
    ensures Fresh(cfg.prog, RecordLeaves(g.recs), k, Now(w, g, k))
  {
    var l := RecordLeaves(g.recs);
    var n := if k.Query? then g.rank(k.id) + 1 else 0;
    SettledFresh(cfg, w, g, l, k, n);
  }
}
