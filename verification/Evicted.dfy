/** Why eviction is proved for programs without untracked reads.

    `LEAF` reads untracked state, `MIDDLE` reads `LEAF`, `TOP` reads `MIDDLE`; `ROOT` reads `MIDDLE` and then
    `TOP`, and returns what it reads there. With room for one query record, a request for `TOP` leaves `TOP`
    alone. The untracked state changes, and `ROOT` is asked for: `LEAF` and `MIDDLE` run again, for the first
    time as far as the records tell, so that the revision stands and `TOP` passes.
 */
module Evicted {
  import opened Options
  import opened Programs
  import opened Graphs
  import opened Steps
  import opened Requests
  import opened Databases

  const LEAF := Query(1)
  const MIDDLE := Query(2)
  const TOP := Query(3)
  const ROOT := Query(4)

  function Last(h: seq<Answer>): Move
    requires h != []
  {
    if h[|h| - 1].Val? then Done(h[|h| - 1].v) else Raise
  }

  function Copy(k: Key): RawBody {
    RawBody((h: seq<Answer>) => if |h| == 0 then Ask(k) else Last(h), 1)
  }

  const BOTH: RawBody := RawBody((h: seq<Answer>) =>
    if |h| == 0 then Ask(MIDDLE) else if |h| == 1 then Ask(TOP) else Last(h), 2)

  function Program(): Prog {
    assert Halts(Copy(Ambient(0))) && Halts(Copy(LEAF)) && Halts(Copy(MIDDLE)) && Halts(BOTH);
    map[1 := Copy(Ambient(0)), 2 := Copy(LEAF), 3 := Copy(MIDDLE), 4 := BOTH]
  }

  function Setting(limit: Option<nat>): Config {
    Config(Program(), (k: Key) => 0, (r: nat, v: int) => Val(v), limit)
  }

  function Outside(v: Value): World {
    World((r: nat) => None, (i: nat) => v)
  }

  /** `q`, which had no record, is executed and its value stored: the step of `CommitStep`. */
  ghost predicate RunsCold(cfg: Config, w: World, g: Graph, g': Graph, q: Key, a: Answer) {
    && q in g.known && q !in g.recs && Reason(w, g, q)
    && exists t, rec :: Executed(cfg, w, g, q, t, a, rec) && g' == Committed(w, g, q, t, rec, true)
  }

  /** The record and the trace of a copy. */
  function CopyRecord(d: Key, v: Value, rev: nat, req: int): Record {
    Record(Val(v), rev, rev, if d.Ambient? then [] else [d], d.Ambient?, 0, req, false)
  }

  function CopyTrace(d: Key, v: Value): Trace {
    Trace([d], [Val(v)])
  }

  lemma CopyRuns(cfg: Config, w: World, g: Graph, q: Key, d: Key, v: Value)
    requires q.Query? && q.id in cfg.prog && cfg.prog[q.id] == Copy(d) && q in g.known && q !in g.recs && q !in g.start
    requires Settled(w, g, d) && Now(w, g, d) == Val(v)
    ensures var rec := CopyRecord(d, v, g.rev, g.req);
            && Executed(cfg, w, g, q, CopyTrace(d, v), Val(v), rec) && Reason(w, g, q)
            && RunsCold(cfg, w, g, Committed(w, g, q, CopyTrace(d, v), rec, true), q, Val(v))
  {
    var t, rec := CopyTrace(d, v), CopyRecord(d, v, g.rev, g.req);
    assert t.answers[..0] == [] && t.answers[..1] == [Val(v)];
    assert t.keys[0] == d;
    assert Replays(cfg.prog[q.id], t, Val(v)) && DepsOk(rec, t);
    hide Halts; hide Replays; hide DepsOk;
    assert Executed(cfg, w, g, q, t, Val(v), rec);
  }

  // ---------------------------------------------------------------------------------------------
  // The request for `TOP`

  ghost function Opened(): Graph {
    Begun(Graph(0, -1, map[], {}, map[], (i: nat) => 0, 1, map[], map[], multiset{}, {}, map[], 0)).(known := {LEAF,
      MIDDLE, TOP})
  }

  ghost function OneLeaf(v: Value): Graph {
    Committed(Outside(v), Opened(), LEAF, CopyTrace(Ambient(0), v), CopyRecord(Ambient(0), v, 0, 0), true)
  }

  ghost function OneMiddle(v: Value): Graph {
    Committed(Outside(v), OneLeaf(v), MIDDLE, CopyTrace(LEAF, v), CopyRecord(LEAF, v, 0, 0), true)
  }

  ghost function OneTop(v: Value): Graph {
    Committed(Outside(v), OneMiddle(v), TOP, CopyTrace(MIDDLE, v), CopyRecord(MIDDLE, v, 0, 0), true)
  }

  lemma OpenedOk(v: Value)
    ensures Inv(Setting(None), Outside(v), Opened())
  {
    hide Program;
  }

  lemma LeafOk(v: Value)
    ensures Inv(Setting(None), Outside(v), OneLeaf(v))
    ensures RunsCold(Setting(None), Outside(v), Opened(), OneLeaf(v), LEAF, Val(v))
    ensures OneLeaf(v).recs == map[LEAF := CopyRecord(Ambient(0), v, 0, 0)]
  {
    OpenedOk(v);
    CopyRuns(Setting(None), Outside(v), Opened(), LEAF, Ambient(0), v);
    hide Inv; hide RunsCold; hide Executed; hide Reason;
    var g := CommitStep(Setting(None), Outside(v), Opened(), LEAF, CopyTrace(Ambient(0), v), Val(v),
      CopyRecord(Ambient(0), v, 0, 0), true);
  }

  lemma MiddleOk(v: Value)
    ensures Inv(Setting(None), Outside(v), OneMiddle(v))
    ensures RunsCold(Setting(None), Outside(v), OneLeaf(v), OneMiddle(v), MIDDLE, Val(v))
    ensures OneMiddle(v).recs == map[LEAF := CopyRecord(Ambient(0), v, 0, 0), MIDDLE := CopyRecord(LEAF, v, 0, 0)]
  {
    LeafOk(v);
    hide Inv; hide RunsCold; hide Executed; hide Reason; hide Promoted;
    CopyRuns(Setting(None), Outside(v), OneLeaf(v), MIDDLE, LEAF, v);
    var g := CommitStep(Setting(None), Outside(v), OneLeaf(v), MIDDLE, CopyTrace(LEAF, v), Val(v),
      CopyRecord(LEAF, v, 0, 0), true);
  }

  lemma TopOk(v: Value)
    ensures Inv(Setting(None), Outside(v), OneTop(v))
    ensures RunsCold(Setting(None), Outside(v), OneMiddle(v), OneTop(v), TOP, Val(v))
    ensures OneTop(v).recs == map[
      LEAF := CopyRecord(Ambient(0), v, 0, 0), MIDDLE := CopyRecord(LEAF, v, 0, 0), TOP := CopyRecord(MIDDLE, v, 0, 0)]
    ensures OneTop(v).rev == 0 && OneTop(v).req == 0
  {
    MiddleOk(v);
    hide Inv; hide RunsCold; hide Executed; hide Reason; hide Promoted;
    CopyRuns(Setting(None), Outside(v), OneMiddle(v), TOP, MIDDLE, v);
    var g := CommitStep(Setting(None), Outside(v), OneMiddle(v), TOP, CopyTrace(MIDDLE, v), Val(v),
      CopyRecord(MIDDLE, v, 0, 0), true);
  }

  // ---------------------------------------------------------------------------------------------
  // The request for `ROOT`

  /** All but `TOP`, used last, are evicted. */
  ghost function Kept(v: Value): Graph {
    OneTop(v).(recs := OneTop(v).recs - {LEAF, MIDDLE}, known := {TOP})
  }

  ghost function Reopened(v: Value): Graph {
    Begun(Kept(v)).(known := {LEAF, MIDDLE, TOP, ROOT})
  }

  ghost function TwoLeaf(v: Value, v': Value): Graph {
    Committed(Outside(v'), Reopened(v), LEAF, CopyTrace(Ambient(0), v'), CopyRecord(Ambient(0), v', 0, 1), true)
  }

  ghost function TwoMiddle(v: Value, v': Value): Graph {
    Committed(Outside(v'), TwoLeaf(v, v'), MIDDLE, CopyTrace(LEAF, v'), CopyRecord(LEAF, v', 0, 1), true)
  }

  lemma ReopenedIs(v: Value)
    ensures var g := Reopened(v);
            && g.recs == map[TOP := CopyRecord(MIDDLE, v, 0, 0)] && g.start == g.recs && g.rev == 0 && g.req == 1
            && g.known == {LEAF, MIDDLE, TOP, ROOT}
  {
    TopOk(v);
    hide OneTop; hide Inv;
  }

  lemma TwoLeafOk(v: Value, v': Value)
    ensures RunsCold(Setting(Some(1)), Outside(v'), Reopened(v), TwoLeaf(v, v'), LEAF, Val(v'))
    ensures var g := TwoLeaf(v, v');
            && g.recs == map[TOP := CopyRecord(MIDDLE, v, 0, 0), LEAF := CopyRecord(Ambient(0), v', 0, 1)]
            && g.start == Reopened(v).recs && g.rev == 0 && g.req == 1 && g.known == {LEAF, MIDDLE, TOP, ROOT}
  {
    ReopenedIs(v);
    hide Reopened; hide RunsCold; hide Executed; hide Reason; hide Promoted;
    CopyRuns(Setting(Some(1)), Outside(v'), Reopened(v), LEAF, Ambient(0), v');
  }

  lemma TwoMiddleOk(v: Value, v': Value)
    ensures RunsCold(Setting(Some(1)), Outside(v'), TwoLeaf(v, v'), TwoMiddle(v, v'), MIDDLE, Val(v'))
    ensures var g := TwoMiddle(v, v');
            && g.recs == map[TOP := CopyRecord(MIDDLE, v, 0, 0), LEAF := CopyRecord(Ambient(0), v', 0, 1),
                             MIDDLE := CopyRecord(LEAF, v', 0, 1)]
            && g.start == Reopened(v).recs && g.rev == 0 && g.req == 1 && g.known == {LEAF, MIDDLE, TOP, ROOT}
  {
    TwoLeafOk(v, v');
    ReopenedIs(v);
    hide Reopened; hide TwoLeaf; hide RunsCold; hide Executed; hide Reason; hide Promoted;
    CopyRuns(Setting(Some(1)), Outside(v'), TwoLeaf(v, v'), MIDDLE, LEAF, v');
  }

  /** `TOP` is verified, not run, and `ROOT` returns what it holds. */
  ghost function TwoTop(v: Value, v': Value): Graph
    requires TOP in TwoMiddle(v, v').recs
  {
    AfterVerify(TwoMiddle(v, v'), TOP)
  }

  lemma TopPasses(v: Value, v': Value)
    ensures Verifiable(Outside(v'), TwoMiddle(v, v'), TOP)
    ensures var g := TwoTop(v, v');
            && ROOT !in g.recs && ROOT in g.known && ROOT !in g.start && g.rev == 0
            && Settled(Outside(v'), g, MIDDLE) && Now(Outside(v'), g, MIDDLE) == Val(v')
            && Settled(Outside(v'), g, TOP) && Now(Outside(v'), g, TOP) == Val(v) && InputsOf(g.recs) == map[]
  {
    TwoMiddleOk(v, v');
    ReopenedIs(v);
    hide TwoMiddle; hide Reopened; hide RunsCold;
  }

  lemma RootRuns(w: World, g: Graph, v: Value, v': Value)
    requires ROOT !in g.recs && ROOT in g.known && ROOT !in g.start
    requires Settled(w, g, MIDDLE) && Now(w, g, MIDDLE) == Val(v') && Settled(w, g, TOP) && Now(w, g, TOP) == Val(v)
    ensures exists g' :: RunsCold(Setting(Some(1)), w, g, g', ROOT, Val(v))
  {
    var t := Trace([MIDDLE, TOP], [Val(v'), Val(v)]);
    var rec := Record(Val(v), g.rev, g.rev, [MIDDLE, TOP], false, 0, g.req, false);
    assert t.answers[..0] == [] && t.answers[..1] == [Val(v')] && t.answers[..2] == t.answers;
    assert t.keys[0] == MIDDLE && t.keys[1] == TOP;
    assert Replays(BOTH, t, Val(v)) && DepsOk(rec, t);
    hide Halts; hide Replays; hide DepsOk;
    assert Executed(Setting(Some(1)), w, g, ROOT, t, Val(v), rec);
    assert RunsCold(Setting(Some(1)), w, g, Committed(w, g, ROOT, t, rec, true), ROOT, Val(v));
  }

  lemma FreshIsNew(w: World, v: Value)
    requires w.ambient(0) == v
    ensures Fresh(Program(), WorldLeaves(Setting(Some(1)), w, map[]), ROOT, Val(v))
  {
    var prog, l := Program(), WorldLeaves(Setting(Some(1)), w, map[]);
    assert [] + [Val(v)] == [Val(v)] && [Val(v)] + [Val(v)] == [Val(v), Val(v)];
    assert RunBody(prog, l, 0, prog[1], [Val(v)]) == Some(Val(v));
    assert Eval(prog, l, 1, LEAF) == Some(Val(v));
    assert RunBody(prog, l, 1, prog[2], [Val(v)]) == Some(Val(v));
    assert Eval(prog, l, 2, MIDDLE) == Some(Val(v));
    assert RunBody(prog, l, 2, prog[3], [Val(v)]) == Some(Val(v));
    assert Eval(prog, l, 3, TOP) == Some(Val(v));
    EvalMonotone(prog, l, l, 2, 3, MIDDLE);
    assert RunBody(prog, l, 3, prog[4], [Val(v), Val(v)]) == Some(Val(v));
    assert RunBody(prog, l, 3, prog[4], [Val(v)]) == Some(Val(v));
    assert Eval(prog, l, 4, ROOT) == Some(Val(v));
  }

  lemma OneKept(v: Value)
    ensures Databases.Trimmed(OneTop(v).recs, Kept(v).recs, map[LEAF := 1, MIDDLE := 2, TOP := 3],
              map[TOP := 3], 3)
    ensures QueriesIn(Kept(v).recs) == {TOP}
  {
    TopOk(v);
    hide OneTop; hide Inv; hide RunsCold;
  }

  /** From an empty database, step by step: three runs, an eviction down to one record, two runs, a
      verification and a run. `ROOT` is answered with the old value of the untracked state. */
  lemma EvictionHidesUntracked(v: Value, v': Value)
    requires v != v'
    ensures Inv(Setting(None), Outside(v), Opened()) && Opened().recs == map[]
    ensures RunsCold(Setting(None), Outside(v), Opened(), OneLeaf(v), LEAF, Val(v))
    ensures RunsCold(Setting(None), Outside(v), OneLeaf(v), OneMiddle(v), MIDDLE, Val(v))
    ensures RunsCold(Setting(None), Outside(v), OneMiddle(v), OneTop(v), TOP, Val(v))
    ensures Databases.Trimmed(OneTop(v).recs, Kept(v).recs, map[LEAF := 1, MIDDLE := 2, TOP := 3],
              map[TOP := 3], 3)
    ensures |QueriesIn(Kept(v).recs)| == 1 && Reopened(v) == Begun(Kept(v)).(known := {LEAF, MIDDLE, TOP, ROOT})
    ensures RunsCold(Setting(Some(1)), Outside(v'), Reopened(v), TwoLeaf(v, v'), LEAF, Val(v'))
    ensures RunsCold(Setting(Some(1)), Outside(v'), TwoLeaf(v, v'), TwoMiddle(v, v'), MIDDLE, Val(v'))
    ensures Verifiable(Outside(v'), TwoMiddle(v, v'), TOP)
    ensures exists g :: RunsCold(Setting(Some(1)), Outside(v'), TwoTop(v, v'), g, ROOT, Val(v))
    ensures Fresh(Program(), WorldLeaves(Setting(Some(1)), Outside(v'), InputsOf(TwoTop(v, v').recs)), ROOT, Val(v'))
  {
    hide Inv; hide Fresh; hide Databases.Trimmed; hide RunsCold; hide WorldLeaves; hide InputsOf; hide Program;
    hide OneTop; hide OneMiddle; hide OneLeaf; hide TwoLeaf; hide TwoMiddle; hide QueriesIn; hide Settled;
    hide Now;
    OpenedOk(v);
    LeafOk(v);
    MiddleOk(v);
    TopOk(v);
    OneKept(v);
    TwoLeafOk(v, v');
    TwoMiddleOk(v, v');
    TopPasses(v, v');
    RootRuns(Outside(v'), TwoTop(v, v'), v, v');
    FreshIsNew(Outside(v'), v');
  }
}
