/** What happens between requests: inputs are set, a request opens, query nodes are evicted. */
module Requests {
  import opened Programs
  import opened Graphs

  /** The query records without a live query object. */
  function Unknown(recs: map<Key, Record>, known: set<Key>): set<Key> {
    set k | k in recs && k.Query? && k !in known
  }

  ghost function Begun(g: Graph): Graph {
    g.(req := g.req + 1, start := g.recs, began := g.traces, runs := multiset{}, blind := Unknown(g.recs, g.known),
      first := g.rev)
  }

  /** A new request finds nothing settled, whatever the world has become. */
  lemma BeginRequest(cfg: Config, w: World, w': World, g: Graph, g': Graph)
    requires CoreInv(cfg, w, g) && g' == Begun(g)
    ensures Inv(cfg, w', g')
  {
    forall k | k in g'.recs ensures StampsOk(g', k) && SinceOk(w', g', k) { assert StampsOk(g, k); }
    forall q | q in g'.recs && q.Query? ensures TraceOk(cfg, g', q) { assert TraceOk(cfg, g, q); }
    forall q, i | q in g'.recs && q.Query? && 0 <= i < |g'.traces[q].keys|
      ensures EdgeOk(cfg, g', q, g'.traces[q].keys[i], g'.traces[q].answers[i])
      ensures CurrentOk(cfg, g', q, g'.traces[q].keys[i], g'.traces[q].answers[i])
    {
      assert EdgeOk(cfg, g, q, g.traces[q].keys[i], g.traces[q].answers[i]);
      assert CurrentOk(cfg, g, q, g.traces[q].keys[i], g.traces[q].answers[i]);
    }
  }

  /** An evicted query leaves its readers' edges dangling; nothing else about them changes. */
  lemma EvictStep(cfg: Config, w: World, g: Graph, g': Graph, x: Key)
    requires CoreInv(cfg, w, g) && cfg.Evicts() && x.Query?
    requires g' == g.(recs := g.recs - {x}, known := g.known - {x})
    ensures CoreInv(cfg, w, g')
  {
    hide EdgeOk; hide CurrentOk; hide Fresh;
    forall k | k in g'.recs ensures StampsOk(g', k) { assert StampsOk(g, k); }
    forall q | q in g'.recs && q.Query? ensures TraceOk(cfg, g', q) && KnownOk(g', q) {
      assert TraceOk(cfg, g, q) && KnownOk(g, q);
    }
    forall q, i | q in g'.recs && q.Query? && 0 <= i < |g'.traces[q].keys|
      ensures EdgeOk(cfg, g', q, g'.traces[q].keys[i], g'.traces[q].answers[i])
      ensures CurrentOk(cfg, g', q, g'.traces[q].keys[i], g'.traces[q].answers[i])
    {
      assert EdgeOk(cfg, g, q, g.traces[q].keys[i], g.traces[q].answers[i]);
      assert CurrentOk(cfg, g, q, g.traces[q].keys[i], g.traces[q].answers[i]);
      EvictEdge(cfg, g, g', x, q, g.traces[q].keys[i], g.traces[q].answers[i]);
    }
  }

  lemma EvictEdge(cfg: Config, g: Graph, g': Graph, x: Key, q: Key, d: Key, a: Answer)
    requires cfg.Evicts() && x.Query? && g' == g.(recs := g.recs - {x}, known := g.known - {x}) && q in g'.recs
    requires EdgeOk(cfg, g, q, d, a) && CurrentOk(cfg, g, q, d, a)
    ensures EdgeOk(cfg, g', q, d, a) && CurrentOk(cfg, g', q, d, a)
  {
    assert Extends(RecordLeaves(g.recs), RecordLeaves(g'.recs));
    if Fresh(cfg.prog, RecordLeaves(g.recs), d, a) {
      FreshExtends(cfg.prog, RecordLeaves(g.recs), RecordLeaves(g'.recs), d, a);
    }
  }

  function InputRecord(v: Value, rev: nat): Record {
    Record(Val(v), rev, rev, [], false, 0, -1, false)
  }

  /** An equal update refreshes the input's own stamp and nothing else. */
  lemma EqualInputStep(cfg: Config, w: World, g: Graph, g': Graph, x: Key)
    requires CoreInv(cfg, w, g) && x.Input? && x in g.recs
    requires g' == g.(recs := g.recs[x := g.recs[x].(verifiedAt := g.rev, checkedIn := -1)])
    ensures CoreInv(cfg, w, g')
  {
    assert Extends(RecordLeaves(g.recs), RecordLeaves(g'.recs));
    InputsChange(cfg, w, g, g');
  }

  /** Inputs that change land together one revision later. */
  lemma ChangedInputsStep(cfg: Config, w: World, g: Graph, g': Graph, changed: map<Key, Value>)
    requires CoreInv(cfg, w, g)
    requires forall k :: k in changed ==> k.Input?
    requires g' == g.(rev := g.rev + 1, recs := g'.recs)
    requires forall k :: k in g'.recs <==> k in g.recs || k in changed
    requires forall k :: k in g'.recs ==>
      g'.recs[k] == if k in changed then InputRecord(changed[k], g.rev + 1) else g.recs[k]
    ensures CoreInv(cfg, w, g')
  {
    InputsChange(cfg, w, g, g');
  }

  lemma ChangedInputStep(cfg: Config, w: World, g: Graph, g': Graph, k: Key, v: Value)
    requires CoreInv(cfg, w, g) && k.Input?
    requires g' == g.(rev := g.rev + 1, recs := g.recs[k := InputRecord(v, g.rev + 1)])
    ensures CoreInv(cfg, w, g')
  {
    hide CoreInv;
    ChangedInputsStep(cfg, w, g, g', map[k := v]);
  }

  lemma InputsChange(cfg: Config, w: World, g: Graph, g': Graph)
    requires CoreInv(cfg, w, g)
    requires g.rev <= g'.rev && g' == g.(rev := g'.rev, recs := g'.recs)
    requires forall k :: k in g.recs ==> k in g'.recs
    requires forall k :: k in g'.recs && !k.Input? ==> k in g.recs && g'.recs[k] == g.recs[k]
    requires forall k :: k in g'.recs && k.Input? ==> StampsOk(g', k)
    requires forall k :: k in g.recs && k.Input? ==>
      g'.recs[k].changedAt > g.rev ||
      (g'.recs[k].answer == g.recs[k].answer && g'.recs[k].changedAt == g.recs[k].changedAt)
    requires g'.rev == g.rev ==> Extends(RecordLeaves(g.recs), RecordLeaves(g'.recs))
    ensures CoreInv(cfg, w, g')
  {
    forall k | k in g'.recs ensures StampsOk(g', k) { if !k.Input? { assert StampsOk(g, k); } }
    forall q | q in g'.recs && q.Query? ensures TraceOk(cfg, g', q) { assert TraceOk(cfg, g, q); }
    forall q, i | q in g'.recs && q.Query? && 0 <= i < |g'.traces[q].keys|
      ensures EdgeOk(cfg, g', q, g'.traces[q].keys[i], g'.traces[q].answers[i])
      ensures CurrentOk(cfg, g', q, g'.traces[q].keys[i], g'.traces[q].answers[i])
    {
      var d, a := g.traces[q].keys[i], g.traces[q].answers[i];
      assert StampsOk(g, q) && EdgeOk(cfg, g, q, d, a) && CurrentOk(cfg, g, q, d, a);
      if g'.rev == g.rev && Fresh(cfg.prog, RecordLeaves(g.recs), d, a) {
        FreshExtends(cfg.prog, RecordLeaves(g.recs), RecordLeaves(g'.recs), d, a);
      }
    }
  }
}
