/** Each atomic change the engine makes to its records keeps the invariant. */
module Steps {
  import opened Options
  import opened Programs
  import opened Graphs

  lemma SettledStays(w: World, g: Graph, g': Graph, k: Key)
    requires g'.req == g.req && Settled(w, g, k) && Same(g, g', k)
    ensures Settled(w, g', k) && Now(w, g', k) == Now(w, g, k)
  {}

  /** Runs stay justified while settled nodes keep their records. */
  lemma RunsKept(w: World, g: Graph, g': Graph, q: Key)
    requires Step(w, g, g') && RunOk(w, g, q) && g'.runs[q] == g.runs[q]
    ensures RunOk(w, g', q)
  {
    if g'.runs[q] > 0 {
      SettledStays(w, g, g', q);
      if q in g.start && !g.start[q].untracked {
        var d :| d in g.start[q].deps && Checked(w, g, d) && Moved(g, d, g.start[q].verifiedAt);
        if Settled(w, g, d) { SettledStays(w, g, g', d); assert Same(g, g', d); }
        assert Moved(g', d, g'.start[q].verifiedAt);
      }
    }
  }

  /** What shifted stays shifted. */
  lemma BumpKept(w: World, g: Graph, g': Graph)
    requires Step(w, g, g') && BumpOk(w, g) && (g'.rev == g.rev || g.rev > g.first)
    ensures BumpOk(w, g')
  {
    if g.rev > g.first {
      var k :| Shifted(w, g, k);
      SettledStays(w, g, g', k);
      assert Same(g, g', k);
      assert Shifted(w, g', k);
    }
  }

  /** What the invariant says of one record. */
  lemma InvAt(cfg: Config, w: World, g: Graph, k: Key)
    requires Inv(cfg, w, g) && k in g.recs
    ensures StampsOk(g, k) && SinceOk(w, g, k)
    ensures k.Query? ==> TraceOk(cfg, g, k) && KnownOk(g, k)
    ensures k.Resource? ==> ResourceOk(cfg, w, g, k)
  {}

  // ---------------------------------------------------------------------------------------------
  // One record changes

  /** `g'` differs from `g` at `x` alone, which the change settles. */
  ghost predicate Change(w: World, g: Graph, g': Graph, x: Key) {
    && Step(w, g, g') && !Settled(w, g, x) && Settled(w, g', x) && !x.Ambient? && g.known <= g'.known
    && (forall k :: k != x ==> Same(g, g', k) && g'.runs[k] == g.runs[k])
  }

  lemma OthersKept(cfg: Config, w: World, g: Graph, g': Graph, x: Key, k: Key)
    requires Inv(cfg, w, g) && Change(w, g, g', x) && k != x && k in g'.recs
    ensures StampsOk(g', k) && SinceOk(w, g', k)
    ensures k.Query? ==> TraceOk(cfg, g', k) && KnownOk(g', k)
    ensures k.Resource? ==> ResourceOk(cfg, w, g', k)
  {
    assert Same(g, g', k);
    assert StampsOk(g, k) && SinceOk(w, g, k);
    if k.Query? { assert TraceOk(cfg, g, k); }
    if k.Resource? { assert ResourceOk(cfg, w, g, k); }
  }

  lemma OthersClosed(cfg: Config, w: World, g: Graph, g': Graph, x: Key, k: Key, i: nat)
    requires Inv(cfg, w, g) && Change(w, g, g', x) && k != x && k in g.recs && k.Query?
    requires k in g.traces && i < |g.traces[k].keys| == |g.traces[k].answers|
    ensures ClosedOk(w, g', k, g.traces[k].keys[i], g.traces[k].answers[i])
  {
    var d, a := g.traces[k].keys[i], g.traces[k].answers[i];
    assert Same(g, g', k);
    assert ClosedOk(w, g, k, d, a);
    if Settled(w, g, d) { SettledStays(w, g, g', d); }
  }

  /** If nothing had moved, nothing moves at `x`. */
  ghost predicate SteadyBy(cfg: Config, w: World, g: Graph, g': Graph, x: Key) {
    SteadyStart(cfg, w, g) && x in g'.recs ==>
      g'.rev == g.rev && SteadyAt(cfg, w, InputsOf(g.start), g.first, x, g'.recs[x])
  }

  lemma SteadyKept(cfg: Config, w: World, g: Graph, g': Graph, x: Key)
    requires Inv(cfg, w, g) && Step(w, g, g') && (forall k :: k != x ==> Same(g, g', k)) && SteadyBy(cfg, w, g, g', x)
    requires x in g'.recs
    ensures SteadyOk(cfg, w, g')
  {
    hide SteadyAt;
    forall k | SteadyStart(cfg, w, g') && k in g'.recs
      ensures SteadyAt(cfg, w, InputsOf(g.start), g.first, k, g'.recs[k])
    {
      if k != x { assert Same(g, g', k); }
    }
  }

  /** What the invariant says of a record where nothing has moved. */
  lemma SteadyNow(cfg: Config, w: World, g: Graph, k: Key)
    requires Inv(cfg, w, g) && SteadyStart(cfg, w, g)
    ensures g.rev == g.first && (k in g.recs ==> SteadyAt(cfg, w, InputsOf(g.start), g.first, k, g.recs[k]))
  {}

  /** The invariant from its parts: what is left to show after a change at `x`. */
  lemma Assemble(cfg: Config, w: World, g: Graph, g': Graph, x: Key)
    requires Inv(cfg, w, g) && Change(w, g, g', x)
    requires StampsOk(g', x) && SinceOk(w, g', x)
    requires x.Query? ==> TraceOk(cfg, g', x) && KnownOk(g', x)
    requires x.Resource? ==> ResourceOk(cfg, w, g', x)
    requires x.Query? ==> forall i {:trigger g'.traces[x].keys[i]} :: 0 <= i < |g'.traces[x].keys| ==>
      ClosedOk(w, g', x, g'.traces[x].keys[i], g'.traces[x].answers[i])
    requires forall i: nat {:trigger g'.rank(i)} :: g'.rank(i) < g'.top
    requires QueriesOk(cfg, w, g') ==> EdgesOk(cfg, w, g') && CurrentEdgesOk(cfg, w, g')
    requires RunsOk(w, g') && (g'.rev == g.rev || g.rev > g.first || Shifted(w, g', x))
    requires SteadyBy(cfg, w, g, g', x)
    ensures Inv(cfg, w, g')
  {
    SteadyKept(cfg, w, g, g', x);
    if g'.rev == g.rev || g.rev > g.first { BumpKept(w, g, g'); }
    forall k | k in g'.recs
      ensures StampsOk(g', k) && SinceOk(w, g', k)
      ensures k.Query? ==> TraceOk(cfg, g', k) && KnownOk(g', k)
      ensures k.Resource? ==> ResourceOk(cfg, w, g', k)
    {
      if k != x { OthersKept(cfg, w, g, g', x, k); }
    }
    forall k, i | k in g'.recs && k.Query? && 0 <= i < |g'.traces[k].keys|
      ensures ClosedOk(w, g', k, g'.traces[k].keys[i], g'.traces[k].answers[i])
    {
      if k != x {
        assert Same(g, g', k) && TraceOk(cfg, g, k);
        OthersClosed(cfg, w, g, g', x, k, i);
      }
    }
  }

  /** While the revision stands, the recorded leaves only grow. */
  lemma CurrentKept(cfg: Config, w: World, g: Graph, g': Graph, k: Key, i: nat)
    requires Inv(cfg, w, g) && Step(w, g, g') && k in g.recs && k.Query? && Same(g, g', k)
    requires k in g.traces && i < |g.traces[k].keys| == |g.traces[k].answers|
    ensures CurrentOk(cfg, g', k, g.traces[k].keys[i], g.traces[k].answers[i])
  {
    var d, a := g.traces[k].keys[i], g.traces[k].answers[i];
    assert StampsOk(g, k) && CurrentOk(cfg, g, k, d, a);
    if cfg.Evicts() && g.recs[k].verifiedAt == g'.rev {
      assert Extends(RecordLeaves(g.recs), RecordLeaves(g'.recs));
      FreshExtends(cfg.prog, RecordLeaves(g.recs), RecordLeaves(g'.recs), d, a);
    }
  }

  lemma LearnEdge(cfg: Config, w: World, g: Graph, g': Graph, k: Key, i: nat)
    requires Inv(cfg, w, g) && g' == g.(known := g'.known)
    requires k in g.recs && k.Query? && k in g.traces && i < |g.traces[k].keys| == |g.traces[k].answers|
    ensures EdgeOk(cfg, g', k, g.traces[k].keys[i], g.traces[k].answers[i])
    ensures ClosedOk(w, g', k, g.traces[k].keys[i], g.traces[k].answers[i])
    ensures CurrentOk(cfg, g', k, g.traces[k].keys[i], g.traces[k].answers[i])
  {
    var d, a := g.traces[k].keys[i], g.traces[k].answers[i];
    assert EdgeOk(cfg, g, k, d, a) && ClosedOk(w, g, k, d, a) && CurrentOk(cfg, g, k, d, a);
  }

  lemma LearnRuns(w: World, g: Graph, g': Graph, x: Key)
    requires RunOk(w, g, x) && g' == g.(known := g'.known)
    ensures RunOk(w, g', x)
  {
    if g.runs[x] > 0 && x in g.start && !g.start[x].untracked {
      var d :| d in g.start[x].deps && Checked(w, g, d) && Moved(g, d, g.start[x].verifiedAt);
      assert Checked(w, g', d) && Moved(g', d, g'.start[x].verifiedAt);
    }
  }

  lemma BumpBeside(cfg: Config, w: World, g: Graph, g': Graph)
    requires Inv(cfg, w, g) && g'.first == g.first && g'.rev == g.rev && g'.start == g.start && g'.saved == g.saved
    requires g'.req == g.req && forall k :: Settled(w, g, k) && k in g.recs ==> k in g'.recs && g'.recs[k] == g.recs[k]
    ensures BumpOk(w, g')
  {
    assert BumpOk(w, g);
    if g.rev > g.first {
      var k :| Shifted(w, g, k);
      assert Shifted(w, g', k);
    }
  }

  lemma SteadyBeside(cfg: Config, w: World, g: Graph, g': Graph)
    requires Inv(cfg, w, g) && g'.first == g.first && g'.rev == g.rev && g'.start == g.start
    requires forall k :: k in g'.recs ==> k in g.recs && g'.recs[k] == g.recs[k]
    ensures SteadyOk(cfg, w, g')
  {
    hide SteadyAt;
    assert SteadyOk(cfg, w, g);
  }

  /** Query objects come and go; those of stored queries stay. */
  lemma LearnKeeps(cfg: Config, w: World, g: Graph, g': Graph)
    requires Inv(cfg, w, g) && g' == g.(known := g'.known)
    requires forall k :: k in g.recs && k in g.known ==> k in g'.known
    ensures Inv(cfg, w, g') && (g.known <= g'.known ==> Step(w, g, g'))
  {
    hide SteadyOk; hide BumpOk; hide EdgeOk; hide ClosedOk; hide CurrentOk; hide RunOk;
    forall k | k in g.recs
      ensures StampsOk(g', k) && SinceOk(w, g', k)
      ensures k.Query? ==> TraceOk(cfg, g', k) && KnownOk(g', k)
      ensures k.Resource? ==> ResourceOk(cfg, w, g', k)
    {
      InvAt(cfg, w, g, k);
    }
    forall k, i | k in g.recs && k.Query? && 0 <= i < |g.traces[k].keys|
      ensures EdgeOk(cfg, g', k, g.traces[k].keys[i], g.traces[k].answers[i])
      ensures ClosedOk(w, g', k, g.traces[k].keys[i], g.traces[k].answers[i])
      ensures CurrentOk(cfg, g', k, g.traces[k].keys[i], g.traces[k].answers[i])
    {
      InvAt(cfg, w, g, k);
      LearnEdge(cfg, w, g, g', k, i);
    }
    forall x ensures RunOk(w, g', x) { LearnRuns(w, g, g', x); }
    BumpBeside(cfg, w, g, g');
    SteadyBeside(cfg, w, g, g');
  }

  // ---------------------------------------------------------------------------------------------
  // Resources

  /** What `r` may be rewritten to: a record settled in this request that either leaves the answer
      and its stamp alone, or lands past every stamp in the graph. */
  ghost predicate ResourceUpdate(cfg: Config, w: World, g: Graph, r: Key, rev': nat, rec: Record) {
    && r.Resource? && !Settled(w, g, r)
    && (rev' == g.rev || (rev' == g.rev + 1 && r in g.recs &&
                          (rec.changedAt == rev' || (rec.unconfirmed && !g.recs[r].unconfirmed))))
    && rec.answer == cfg.outcome(r.id, rec.probe) && !rec.untracked && rec.deps == []
    && rec.changedAt <= rev' && rec.verifiedAt <= rev'
    && (if rec.unconfirmed then w.probe(r.id).None? && r in g.recs && rec.checkedIn == g.recs[r].checkedIn
        else rec.checkedIn == g.req && w.probe(r.id) == Some(rec.probe))
    && (r in g.recs ==>
          && (rev' == g.rev ==> Stands(r, rec) == Stands(r, g.recs[r]) && rec.answer == g.recs[r].answer)
          && (rec.unconfirmed || rec.changedAt > g.rev ||
              (!g.recs[r].unconfirmed && rec.answer == g.recs[r].answer && rec.changedAt == g.recs[r].changedAt))
          && (!g.recs[r].unconfirmed && w.probe(r.id) == Some(g.recs[r].probe) ==>
                rev' == g.rev && !rec.unconfirmed && rec.changedAt == g.recs[r].changedAt))
  }

  lemma ResourceStep(cfg: Config, w: World, g: Graph, r: Key, rev': nat, rec: Record) returns (g': Graph)
    requires Inv(cfg, w, g) && ResourceUpdate(cfg, w, g, r, rev', rec)
    ensures g' == g.(rev := rev', recs := g.recs[r := rec])
    ensures Inv(cfg, w, g') && Change(w, g, g', r)
  {
    hide EdgeOk; hide CurrentOk; hide RunOk;
    g' := g.(rev := rev', recs := g.recs[r := rec]);
    ResourceChange(cfg, w, g, r, rev', rec);
    ResourceSteady(cfg, w, g, r, rev', rec);
    forall q ensures RunOk(w, g', q) { RunsKept(w, g, g', q); }
    forall q, i | QueriesOk(cfg, w, g') && q in g'.recs && q.Query? && 0 <= i < |g'.traces[q].keys|
      ensures EdgeOk(cfg, g', q, g'.traces[q].keys[i], g'.traces[q].answers[i])
      ensures CurrentOk(cfg, g', q, g'.traces[q].keys[i], g'.traces[q].answers[i])
    {
      InvAt(cfg, w, g, q);
      ResourceEdge(cfg, w, g, r, rev', rec, q, i);
      CurrentKept(cfg, w, g, g', q, i);
    }
    Assemble(cfg, w, g, g', r);
  }

  lemma ResourceChange(cfg: Config, w: World, g: Graph, r: Key, rev': nat, rec: Record)
    requires Inv(cfg, w, g) && ResourceUpdate(cfg, w, g, r, rev', rec)
    ensures var g' := g.(rev := rev', recs := g.recs[r := rec]);
            Change(w, g, g', r) && StampsOk(g', r) && SinceOk(w, g', r) && ResourceOk(cfg, w, g', r)
            && (rev' == g.rev || Shifted(w, g', r))
  {
    hide SteadyOk; hide BumpOk; hide RunOk;
    StartStored(cfg, w, g, r);
    if r in g.recs { InvAt(cfg, w, g, r); }
    hide Inv;
  }

  lemma ResourceSteady(cfg: Config, w: World, g: Graph, r: Key, rev': nat, rec: Record)
    requires Inv(cfg, w, g) && ResourceUpdate(cfg, w, g, r, rev', rec)
    ensures SteadyBy(cfg, w, g, g.(rev := rev', recs := g.recs[r := rec]), r)
  {
    if SteadyStart(cfg, w, g) { SteadyNow(cfg, w, g, r); }
    if r in g.recs { InvAt(cfg, w, g, r); }
    hide Inv; hide Steady;
  }

  lemma StartStored(cfg: Config, w: World, g: Graph, k: Key)
    requires Inv(cfg, w, g)
    ensures cfg.Valid() && (k in g.start ==> k in g.recs) && g.first <= g.rev && g.req >= 0
  {}

  lemma ResourceEdge(cfg: Config, w: World, g: Graph, r: Key, rev': nat, rec: Record, q: Key, i: nat)
    requires Inv(cfg, w, g) && ResourceUpdate(cfg, w, g, r, rev', rec)
    requires q in g.recs && q.Query? && q in g.traces && i < |g.traces[q].keys| == |g.traces[q].answers|
    ensures EdgeOk(cfg, g.(rev := rev', recs := g.recs[r := rec]), q, g.traces[q].keys[i], g.traces[q].answers[i])
  {
    assert StampsOk(g, q);
    assert EdgeOk(cfg, g, q, g.traces[q].keys[i], g.traces[q].answers[i]);
  }

  // ---------------------------------------------------------------------------------------------
  // Queries

  /** `d` is settled and gives a reader verified at `since` no reason to run. */
  ghost predicate Passing(w: World, g: Graph, d: Key, since: nat) {
    && !d.Ambient? && Settled(w, g, d)
    && !g.recs[d].untracked && !g.recs[d].unconfirmed && g.recs[d].changedAt <= since
  }

  function Verified(r: Record, rev: nat, req: int): Record {
    r.(verifiedAt := rev, checkedIn := req)
  }

  lemma PassingHolds(cfg: Config, w: World, g: Graph, q: Key, i: nat)
    requires Inv(cfg, w, g) && q in g.recs && q.Query? && !g.recs[q].untracked
    requires forall d :: d in g.recs[q].deps ==> Passing(w, g, d, g.recs[q].verifiedAt)
    requires q in g.traces && i < |g.traces[q].keys| == |g.traces[q].answers|
    ensures var d := g.traces[q].keys[i];
            !d.Ambient? && Settled(w, g, d) && Now(w, g, d) == g.traces[q].answers[i] == g.recs[d].answer
  {
    assert TraceOk(cfg, g, q);
    var d, a := g.traces[q].keys[i], g.traces[q].answers[i];
    assert EdgeOk(cfg, g, q, d, a);
    assert d in g.recs[q].deps;
  }

  ghost predicate Verifiable(w: World, g: Graph, q: Key) {
    && q in g.recs && q.Query? && !g.recs[q].untracked && !Settled(w, g, q)
    && (forall d :: d in g.recs[q].deps ==> Passing(w, g, d, g.recs[q].verifiedAt))
  }

  ghost function AfterVerify(g: Graph, q: Key): Graph
    requires q in g.recs
  {
    g.(recs := g.recs[q := Verified(g.recs[q], g.rev, g.req)])
  }

  lemma VerifyEdge(cfg: Config, w: World, g: Graph, q: Key, k: Key, i: nat)
    requires Inv(cfg, w, g) && Verifiable(w, g, q) && Change(w, g, AfterVerify(g, q), q)
    requires k in g.recs && k.Query? && k in g.traces && i < |g.traces[k].keys| == |g.traces[k].answers|
    ensures var g' := AfterVerify(g, q);
            && EdgeOk(cfg, g', k, g.traces[k].keys[i], g.traces[k].answers[i])
            && ClosedOk(w, g', k, g.traces[k].keys[i], g.traces[k].answers[i])
            && CurrentOk(cfg, g', k, g.traces[k].keys[i], g.traces[k].answers[i])
  {
    var g' := AfterVerify(g, q);
    var d, a := g.traces[k].keys[i], g.traces[k].answers[i];
    assert EdgeOk(cfg, g, k, d, a);
    if k != q {
      OthersClosed(cfg, w, g, g', q, k, i);
      CurrentKept(cfg, w, g, g', k, i);
    } else {
      PassingHolds(cfg, w, g, q, i);
      SettledStays(w, g, g', d);
      if cfg.Evicts() {
        SettledFreshInRecords(cfg, w, g, d);
        assert Extends(RecordLeaves(g.recs), RecordLeaves(g'.recs));
        FreshExtends(cfg.prog, RecordLeaves(g.recs), RecordLeaves(g'.recs), d, a);
      }
    }
  }

  lemma VerifyChange(w: World, g: Graph, q: Key)
    requires q in g.recs && q.Query? && !Settled(w, g, q)
    ensures Change(w, g, AfterVerify(g, q), q)
  {}

  lemma VerifyRecord(cfg: Config, w: World, g: Graph, q: Key)
    requires Inv(cfg, w, g) && Verifiable(w, g, q)
    ensures var g' := AfterVerify(g, q);
            StampsOk(g', q) && SinceOk(w, g', q) && TraceOk(cfg, g', q) && KnownOk(g', q)
  {
    StartStored(cfg, w, g, q);
    InvAt(cfg, w, g, q);
    hide Inv; hide Replays; hide DepsOk; hide InLabelOrder; hide Passing;
  }

  lemma VerifySteady(cfg: Config, w: World, g: Graph, q: Key)
    requires Inv(cfg, w, g) && Verifiable(w, g, q)
    ensures SteadyBy(cfg, w, g, AfterVerify(g, q), q)
  {
    if SteadyStart(cfg, w, g) { SteadyNow(cfg, w, g, q); }
    hide Inv; hide Steady; hide Fresh;
  }

  /** A query all of whose dependencies pass is stamped with the current revision. */
  lemma VerifyStep(cfg: Config, w: World, g: Graph, q: Key) returns (g': Graph)
    requires Inv(cfg, w, g) && Verifiable(w, g, q)
    ensures g' == AfterVerify(g, q)
    ensures Inv(cfg, w, g') && Change(w, g, g', q)
  {
    g' := AfterVerify(g, q);
    VerifyChange(w, g, q);
    VerifyRecord(cfg, w, g, q);
    VerifySteady(cfg, w, g, q);
    forall x ensures RunOk(w, g', x) { RunsKept(w, g, g', x); }
    forall k, i | k in g.recs && k.Query? && k in g.traces && 0 <= i < |g.traces[k].keys| == |g.traces[k].answers|
      ensures EdgeOk(cfg, g', k, g.traces[k].keys[i], g.traces[k].answers[i])
      ensures ClosedOk(w, g', k, g.traces[k].keys[i], g.traces[k].answers[i])
      ensures CurrentOk(cfg, g', k, g.traces[k].keys[i], g.traces[k].answers[i])
    {
      VerifyEdge(cfg, w, g, q, k, i);
    }
    Assemble(cfg, w, g, g', q);
  }

  /** Where a re-execution that produced `a` lands: the old stamp if the value stands, otherwise past
      every stamp in the graph; a first execution takes the revision as it is. */
  function LandingRev(g: Graph, q: Key, a: Answer): nat {
    if q in g.recs && g.recs[q].answer != a then g.rev + 1 else g.rev
  }

  function Landed(g: Graph, q: Key, a: Answer, deps: seq<Key>, untracked: bool): Record {
    var rev := LandingRev(g, q, a);
    Record(a, if q in g.recs && g.recs[q].answer == a then g.recs[q].changedAt else rev,
           rev, deps, untracked, 0, g.req, false)
  }

  /** The committed node ranks above everything settled and below everything that is not. */
  ghost function Promoted(w: World, g: Graph, q: Key, i: nat): nat
    requires q.Query?
  {
    if Settled(w, g, Query(i)) then g.rank(i) else if i == q.id then g.top else g.top + 1 + g.rank(i)
  }

  /** An execution about to be committed: every answer it read is the settled one. */
  ghost predicate Executed(cfg: Config, w: World, g: Graph, q: Key, t: Trace, a: Answer, rec: Record) {
    && q.Query? && q.id in cfg.prog && !Settled(w, g, q) && (q in g.known || !rec.untracked)
    && Replays(cfg.prog[q.id], t, a) && DepsOk(rec, t) && InLabelOrder(cfg.labelOf, rec.deps)
    && rec == Landed(g, q, a, rec.deps, rec.untracked)
    && (forall i :: 0 <= i < |t.keys| ==> Settled(w, g, t.keys[i]) && Now(w, g, t.keys[i]) == t.answers[i])
  }

  ghost predicate Reason(w: World, g: Graph, q: Key) {
    q in g.start && !g.start[q].untracked ==>
      exists d :: d in g.start[q].deps && Checked(w, g, d) && Moved(g, d, g.start[q].verifiedAt)
  }

  /** `ran`: the body was run now; otherwise its execution was restored from a checkpoint. */
  ghost function Committed(w: World, g: Graph, q: Key, t: Trace, rec: Record, ran: bool): Graph
    requires q.Query?
  {
    g.(rev := rec.verifiedAt, recs := g.recs[q := rec], traces := g.traces[q := t],
       rank := (i: nat) => Promoted(w, g, q, i), top := 2 * g.top + 1,
       runs := if ran then g.runs[q := g.runs[q] + 1] else g.runs,
         blind := if q in g.known then g.blind else g.blind + {q})
  }

  /** What was just executed is what the recorded leaves give. */
  lemma ExecutedFresh(cfg: Config, w: World, g: Graph, q: Key, t: Trace, a: Answer, rec: Record)
    requires Inv(cfg, w, g) && Executed(cfg, w, g, q, t, a, rec) && cfg.Evicts()
    ensures Fresh(cfg.prog, RecordLeaves(g.recs), q, a)
  {
    var l, b := RecordLeaves(g.recs), cfg.prog[q.id];
    forall i | 0 <= i < |t.keys| ensures Eval(cfg.prog, l, g.top, t.keys[i]) == Some(t.answers[i]) {
      assert b.step(t.answers[..i]) == Ask(t.keys[i]);
      if t.keys[i].Query? { assert g.rank(t.keys[i].id) < g.top; }
      SettledFresh(cfg, w, g, l, t.keys[i], g.top);
    }
    ReplayRuns(cfg.prog, l, g.top, b, t, a, 0);
    assert t.answers[..0] == [];
    assert Eval(cfg.prog, l, g.top + 1, q) == Some(a);
  }

  /** What was just executed is what a fresh database computes. */
  lemma ExecutedFreshInWorld(cfg: Config, w: World, g: Graph, q: Key, t: Trace, a: Answer, rec: Record)
    requires Inv(cfg, w, g) && Executed(cfg, w, g, q, t, a, rec)
    ensures Fresh(cfg.prog, WorldLeaves(cfg, w, InputsOf(g.start)), q, a)
  {
    hide Inv; hide Fresh; hide Settled; hide Now; hide WorldLeaves;
    InputsKept(cfg, w, g);
    var l := WorldLeaves(cfg, w, InputsOf(g.start));
    forall i | 0 <= i < |t.keys| ensures Fresh(cfg.prog, l, t.keys[i], t.answers[i]) {
      if t.keys[i].Query? {
        SettledFreshInWorld(cfg, w, g, t.keys[i]);
      } else {
        LeafNow(cfg, w, g, t.keys[i]);
        LeafFresh(cfg.prog, l, t.keys[i], t.answers[i]);
      }
    }
    FreshReplay(cfg.prog, l, q, t, a);
  }

  lemma LeafFresh(prog: Prog, l: Leaves, k: Key, a: Answer)
    requires !k.Query? && l(k) == Some(a)
    ensures Fresh(prog, l, k, a)
  {
    assert Eval(prog, l, 0, k) == Some(a);
  }

  lemma CommitSteady(cfg: Config, w: World, g: Graph, q: Key, t: Trace, a: Answer, rec: Record, ran: bool)
    requires Inv(cfg, w, g) && Executed(cfg, w, g, q, t, a, rec)
    ensures SteadyBy(cfg, w, g, Committed(w, g, q, t, rec, ran), q)
  {
    ExecutedFreshInWorld(cfg, w, g, q, t, a, rec);
    if SteadyStart(cfg, w, g) {
      SteadyNow(cfg, w, g, q);
      hide Inv; hide Fresh;
      if q in g.recs {
        var l := WorldLeaves(cfg, w, InputsOf(g.start));
        FreshUnique(cfg.prog, l, l, q, a, g.recs[q].answer);
      }
    }
  }

  lemma CommittedEdge(cfg: Config, w: World, g: Graph, q: Key, t: Trace, a: Answer, rec: Record, ran: bool, k: Key,
      i: nat)
    requires Inv(cfg, w, g) && Executed(cfg, w, g, q, t, a, rec) && Change(w, g, Committed(w, g, q, t, rec, ran), q)
    requires k in g.recs && k.Query? && k != q && k in g.traces && i < |g.traces[k].keys| == |g.traces[k].answers|
    ensures EdgeOk(cfg, Committed(w, g, q, t, rec, ran), k, g.traces[k].keys[i], g.traces[k].answers[i])
    ensures CurrentOk(cfg, Committed(w, g, q, t, rec, ran), k, g.traces[k].keys[i], g.traces[k].answers[i])
  {
    hide SinceOk; hide KnownOk; hide DepsOk; hide InLabelOrder; hide Replays;
    var d, b := g.traces[k].keys[i], g.traces[k].answers[i];
    InvAt(cfg, w, g, k);
    EdgeAt(cfg, w, g, k, i);
    CurrentAt(cfg, w, g, k, i);
    RankBelow(cfg, w, g, k.id);
    if d.Query? { RankBelow(cfg, w, g, d.id); assert Query(d.id) == d; }
    assert Query(k.id) == k;
    if d == q && q !in g.recs && g.recs[k].verifiedAt == g.rev && cfg.Evicts() {
      ExecutedFresh(cfg, w, g, q, t, a, rec);
      FreshUnique(cfg.prog, RecordLeaves(g.recs), RecordLeaves(g.recs), q, a, b);
    }
    CurrentKept(cfg, w, g, Committed(w, g, q, t, rec, ran), k, i);
    hide Inv; hide Fresh;
  }

  lemma CommittedOwnEdge(cfg: Config, w: World, g: Graph, q: Key, t: Trace, a: Answer, rec: Record, ran: bool, i: nat)
    requires Inv(cfg, w, g) && Executed(cfg, w, g, q, t, a, rec) && i < |t.keys|
    requires Change(w, g, Committed(w, g, q, t, rec, ran), q)
    ensures var g' := Committed(w, g, q, t, rec, ran);
            && EdgeOk(cfg, g', q, t.keys[i], t.answers[i])
            && ClosedOk(w, g', q, t.keys[i], t.answers[i])
            && CurrentOk(cfg, g', q, t.keys[i], t.answers[i])
  {
    hide Inv; hide Step; hide DepsOk; hide InLabelOrder; hide Fresh;
    var g' := Committed(w, g, q, t, rec, ran);
    var d, b := t.keys[i], t.answers[i];
    assert cfg.prog[q.id].step(t.answers[..i]) == Ask(d);
    StartStored(cfg, w, g, q);
    SettledStays(w, g, g', d);
    if d.Query? { RankBelow(cfg, w, g, d.id); assert Query(d.id) == d; }
    if !d.Ambient? { InvAt(cfg, w, g, d); }
    if cfg.Evicts() {
      SettledFreshInRecords(cfg, w, g, d);
      assert Extends(RecordLeaves(g.recs), RecordLeaves(g'.recs));
      FreshExtends(cfg.prog, RecordLeaves(g.recs), RecordLeaves(g'.recs), d, b);
    }
  }

  lemma CommitRuns(cfg: Config, w: World, g: Graph, g': Graph, q: Key, x: Key)
    requires Inv(cfg, w, g) && Step(w, g, g') && q.Query? && !Settled(w, g, q) && Settled(w, g', q)
    requires g'.runs == g.runs || (g'.runs == g.runs[q := g.runs[q] + 1] && Reason(w, g, q))
    ensures RunOk(w, g', x)
  {
    assert RunOk(w, g, x);
    if x != q {
      RunsKept(w, g, g', x);
    } else if g'.runs != g.runs && q in g.start && !g.start[q].untracked {
      var d :| d in g.start[q].deps && Checked(w, g, d) && Moved(g, d, g.start[q].verifiedAt);
      if Settled(w, g, d) { SettledStays(w, g, g', d); assert Same(g, g', d); }
      assert Moved(g', d, g'.start[q].verifiedAt);
    }
  }

  lemma RankBelow(cfg: Config, w: World, g: Graph, i: nat)
    requires Inv(cfg, w, g)
    ensures g.rank(i) < g.top
  {}

  lemma CommitChange(cfg: Config, w: World, g: Graph, q: Key, t: Trace, a: Answer, rec: Record, ran: bool)
    requires Inv(cfg, w, g) && Executed(cfg, w, g, q, t, a, rec)
    requires (if ran then q in g.known else q in g.saved && q !in g.start)
    ensures var g' := Committed(w, g, q, t, rec, ran);
            && Change(w, g, g', q) && StampsOk(g', q) && SinceOk(w, g', q) && TraceOk(cfg, g', q) && KnownOk(g', q)
            && (forall i: nat {:trigger g'.rank(i)} :: g'.rank(i) < g'.top) && (g'.rev == g.rev || Shifted(w, g', q))
  {
    hide Inv; hide Replays; hide DepsOk;
    var g' := Committed(w, g, q, t, rec, ran);
    StartStored(cfg, w, g, q);
    if q in g.recs { InvAt(cfg, w, g, q); }
    forall i: nat ensures g'.rank(i) < g'.top { RankBelow(cfg, w, g, i); }
  }

  /** Committing an execution: the value lands, later than every reader's stamp if it moved. */
  lemma CommitStep(cfg: Config, w: World, g: Graph, q: Key, t: Trace, a: Answer, rec: Record,
      ran: bool) returns (g': Graph)
    requires Inv(cfg, w, g) && Executed(cfg, w, g, q, t, a, rec)
    requires if ran then q in g.known && Reason(w, g, q) else q in g.saved && q !in g.start
    ensures g' == Committed(w, g, q, t, rec, ran)
    ensures Inv(cfg, w, g') && Change(w, g, g', q)
  {
    g' := Committed(w, g, q, t, rec, ran);
    CommitChange(cfg, w, g, q, t, a, rec, ran);
    CommitSteady(cfg, w, g, q, t, a, rec, ran);
    forall x ensures RunOk(w, g', x) { CommitRuns(cfg, w, g, g', q, x); }
    forall i | 0 <= i < |t.keys|
      ensures EdgeOk(cfg, g', q, t.keys[i], t.answers[i])
      ensures ClosedOk(w, g', q, t.keys[i], t.answers[i])
      ensures CurrentOk(cfg, g', q, t.keys[i], t.answers[i])
    {
      CommittedOwnEdge(cfg, w, g, q, t, a, rec, ran, i);
    }
    forall k, i | k in g.recs && k != q && k.Query? && 0 <= i < |g.traces[k].keys|
      ensures EdgeOk(cfg, g', k, g.traces[k].keys[i], g.traces[k].answers[i])
      ensures CurrentOk(cfg, g', k, g.traces[k].keys[i], g.traces[k].answers[i])
    {
      assert TraceOk(cfg, g, k);
      CommittedEdge(cfg, w, g, q, t, a, rec, ran, k, i);
    }
    Assemble(cfg, w, g, g', q);
  }

  // ---------------------------------------------------------------------------------------------
  // Restored records

  /** Every query record was verified at the revision as it is. */
  predicate AllCurrent(recs: map<Key, Record>, rev: nat) {
    forall k :: k in recs && k.Query? ==> recs[k].verifiedAt == rev
  }

  /** A record restored now. Each dependency has a record that carries the answer it was computed from, or,
      where nothing is evicted, no answer to go by. */
  ghost predicate Restorable(cfg: Config, w: World, g: Graph, q: Key, t: Trace, rec: Record) {
    && SavedRecord(cfg, g, q, t, rec)
    && (cfg.Evicts() ==> AllCurrent(g.recs, g.rev))
    && (forall i {:trigger t.keys[i]} :: 0 <= i < |t.keys| ==> Supports(cfg, g, t.keys[i], t.answers[i]))
  }

  /** What is stored is the saved execution, as of the revision as it is and not checked in this request. */
  ghost predicate SavedRecord(cfg: Config, g: Graph, q: Key, t: Trace, rec: Record) {
    && q.Query? && q.id in cfg.prog && q !in g.recs && q in g.saved && g.saved[q] == rec.answer
    && Replays(cfg.prog[q.id], t, rec.answer) && DepsOk(rec, t) && InLabelOrder(cfg.labelOf, rec.deps)
    && !rec.untracked && !rec.unconfirmed
    && rec.changedAt == rec.verifiedAt == g.rev && rec.checkedIn == -1
  }

  ghost predicate Supports(cfg: Config, g: Graph, d: Key, a: Answer) {
    && d in g.recs
    && if cfg.Evicts() then Stands(d, g.recs[d]) == a else g.recs[d].unconfirmed || g.recs[d].answer == a
  }

  ghost function Restored(g: Graph, q: Key, t: Trace, rec: Record, rank: nat -> nat, top: nat): Graph {
    g.(recs := g.recs[q := rec], traces := g.traces[q := t], blind := g.blind + {q}, rank := rank, top := top)
  }

  /** The query restored last above all others. */
  ghost function RestoredOnTop(g: Graph, q: Key, t: Trace, rec: Record): Graph {
    g.(recs := g.recs[q := rec], traces := g.traces[q := t], blind := g.blind + {q},
       rank := (i: nat) => if Query(i) == q then g.top else g.rank(i), top := g.top + 1)
  }

  /** Along the recorded edges the rank falls. */
  ghost predicate RanksFall(g: Graph) {
    && (forall i: nat {:trigger g.rank(i)} :: g.rank(i) < g.top)
    && forall k, i {:trigger g.traces[k].keys[i]} ::
         k in g.recs && k.Query? && k in g.traces && 0 <= i < |g.traces[k].keys| && g.traces[k].keys[i].Query? ==>
           g.rank(g.traces[k].keys[i].id) < g.rank(k.id)
  }

  /** Restoring keeps every record and settles nothing. */
  ghost predicate Grows(w: World, g: Graph, g': Graph, q: Key) {
    && g'.req == g.req && g'.rev == g.rev && g'.start == g.start && g'.began == g.began && g'.runs == g.runs
    && g'.saved == g.saved && g'.first == g.first
    && g'.known == g.known && g.blind <= g'.blind && q in g'.recs && !Settled(w, g', q)
    && (forall k :: k != q ==> Same(g, g', k))
  }

  lemma OnTopFalls(cfg: Config, w: World, g: Graph, q: Key, t: Trace, rec: Record)
    requires Inv(cfg, w, g) && Restorable(cfg, w, g, q, t, rec) && !cfg.Evicts()
    ensures RanksFall(RestoredOnTop(g, q, t, rec))
  {
    var g' := RestoredOnTop(g, q, t, rec);
    forall i: nat ensures g'.rank(i) < g'.top { RankBelow(cfg, w, g, i); }
    forall k, i |
      k in g'.recs && k.Query? && k in g'.traces && 0 <= i < |g'.traces[k].keys| && g'.traces[k].keys[i].Query?
      ensures g'.rank(g'.traces[k].keys[i].id) < g'.rank(k.id)
    {
      var d := g'.traces[k].keys[i];
      RankBelow(cfg, w, g, d.id);
      assert Query(d.id) == d && Query(k.id) == k;
      if k == q {
        assert Supports(cfg, g, t.keys[i], t.answers[i]);
      } else {
        InvAt(cfg, w, g, k);
        EdgeAt(cfg, w, g, k, i);
      }
    }
  }

  lemma EdgeAt(cfg: Config, w: World, g: Graph, k: Key, i: nat)
    requires Inv(cfg, w, g)
    requires k in g.recs && k.Query? && k in g.traces && i < |g.traces[k].keys| == |g.traces[k].answers|
    ensures EdgeOk(cfg, g, k, g.traces[k].keys[i], g.traces[k].answers[i])
    ensures ClosedOk(w, g, k, g.traces[k].keys[i], g.traces[k].answers[i])
  {}

  /** Where every record is current, what each read is what the recorded leaves give. */
  lemma CurrentFresh(cfg: Config, w: World, g: Graph, k: Key)
    requires Inv(cfg, w, g) && cfg.Evicts() && AllCurrent(g.recs, g.rev) && k in g.recs && k.Query?
    ensures TraceOk(cfg, g, k)
    ensures forall i :: 0 <= i < |g.traces[k].keys| ==>
      Fresh(cfg.prog, RecordLeaves(g.recs), g.traces[k].keys[i], g.traces[k].answers[i])
    ensures Fresh(cfg.prog, RecordLeaves(g.recs), k, g.recs[k].answer)
  {
    InvAt(cfg, w, g, k);
    forall i | 0 <= i < |g.traces[k].keys|
      ensures Fresh(cfg.prog, RecordLeaves(g.recs), g.traces[k].keys[i], g.traces[k].answers[i])
    {
      CurrentAt(cfg, w, g, k, i);
    }
    hide Inv; hide Fresh;
    FreshReplay(cfg.prog, RecordLeaves(g.recs), k, g.traces[k], g.recs[k].answer);
  }

  /** What supports a restored record is what the recorded leaves give. */
  lemma SupportFresh(cfg: Config, w: World, g: Graph, d: Key, a: Answer)
    requires Inv(cfg, w, g) && cfg.Evicts() && AllCurrent(g.recs, g.rev) && Supports(cfg, g, d, a)
    ensures Fresh(cfg.prog, RecordLeaves(g.recs), d, a)
  {
    InvAt(cfg, w, g, d);
    if d.Query? {
      CurrentFresh(cfg, w, g, d);
    } else {
      LeafFresh(cfg.prog, RecordLeaves(g.recs), d, a);
    }
  }

  lemma RestoredFresh(cfg: Config, w: World, g: Graph, q: Key, t: Trace, rec: Record)
    requires Inv(cfg, w, g) && Restorable(cfg, w, g, q, t, rec) && cfg.Evicts()
    ensures forall i :: 0 <= i < |t.keys| ==> Fresh(cfg.prog, RecordLeaves(g.recs), t.keys[i], t.answers[i])
    ensures Fresh(cfg.prog, RecordLeaves(g.recs), q, rec.answer)
  {
    hide Inv; hide Fresh; hide Supports; hide AllCurrent;
    forall i | 0 <= i < |t.keys| ensures Fresh(cfg.prog, RecordLeaves(g.recs), t.keys[i], t.answers[i]) {
      SupportFresh(cfg, w, g, t.keys[i], t.answers[i]);
    }
    FreshReplay(cfg.prog, RecordLeaves(g.recs), q, t, rec.answer);
  }

  /** Where every record is current, the depth of evaluation ranks them. */
  lemma DepthFalls(cfg: Config, w: World, g: Graph, q: Key, t: Trace, rec: Record) returns (g': Graph)
    requires Inv(cfg, w, g) && Restorable(cfg, w, g, q, t, rec) && cfg.Evicts()
    ensures g' == Restored(g, q, t, rec, g'.rank, g'.top) && RanksFall(g')
  {
    var l := RecordLeaves(g.recs);
    var top := AllDepthsBelow(cfg.prog, l);
    g' := Restored(g, q, t, rec, (i: nat) => MinDepth(cfg.prog, l, Query(i)), top);
    RestoredFresh(cfg, w, g, q, t, rec);
    forall k, i |
      k in g'.recs && k.Query? && k in g'.traces && 0 <= i < |g'.traces[k].keys| && g'.traces[k].keys[i].Query?
      ensures g'.rank(g'.traces[k].keys[i].id) < g'.rank(k.id)
    {
      var d := g'.traces[k].keys[i];
      assert Query(d.id) == d && Query(k.id) == k;
      if k == q {
        ReadsEarlier(cfg.prog, l, q, t, rec.answer, i);
      } else {
        CurrentFresh(cfg, w, g, k);
        ReadsEarlier(cfg.prog, l, k, g.traces[k], g.recs[k].answer, i);
      }
    }
  }

  lemma RestoredOwnEdge(cfg: Config, w: World, g: Graph, q: Key, t: Trace, rec: Record, g': Graph, i: nat)
    requires Inv(cfg, w, g) && Restorable(cfg, w, g, q, t, rec) && i < |t.keys|
    requires g' == Restored(g, q, t, rec, g'.rank, g'.top) && RanksFall(g')
    ensures EdgeOk(cfg, g', q, t.keys[i], t.answers[i]) && ClosedOk(w, g', q, t.keys[i], t.answers[i])
    ensures CurrentOk(cfg, g', q, t.keys[i], t.answers[i])
  {
    assert Supports(cfg, g, t.keys[i], t.answers[i]) && g'.traces[q].keys[i] == t.keys[i];
    StartStored(cfg, w, g, q);
    if cfg.Evicts() {
      RestoredFresh(cfg, w, g, q, t, rec);
      SameLeaves(g.recs, q, rec);
    }
    hide Inv; hide Fresh; hide Replays; hide DepsOk; hide InLabelOrder; hide AllCurrent;
  }

  lemma SameLeaves(recs: map<Key, Record>, q: Key, rec: Record)
    requires q.Query?
    ensures Extends(RecordLeaves(recs), RecordLeaves(recs[q := rec]))
    ensures forall prog: Prog, k, a {:trigger Fresh(prog, RecordLeaves(recs[q := rec]), k, a)} ::
      Fresh(prog, RecordLeaves(recs), k, a) ==> Fresh(prog, RecordLeaves(recs[q := rec]), k, a)
  {
    forall prog: Prog, k, a | Fresh(prog, RecordLeaves(recs), k, a)
      ensures Fresh(prog, RecordLeaves(recs[q := rec]), k, a)
    {
      FreshExtends(prog, RecordLeaves(recs), RecordLeaves(recs[q := rec]), k, a);
    }
  }

  lemma RestoredEdges(cfg: Config, w: World, g: Graph, q: Key, t: Trace, rec: Record, g': Graph, k: Key, i: nat)
    requires Inv(cfg, w, g) && Restorable(cfg, w, g, q, t, rec)
    requires g' == Restored(g, q, t, rec, g'.rank, g'.top) && RanksFall(g')
    requires k in g.recs && k.Query? && k in g.traces && i < |g.traces[k].keys| == |g.traces[k].answers|
    ensures EdgeOk(cfg, g', k, g.traces[k].keys[i], g.traces[k].answers[i])
    ensures ClosedOk(w, g', k, g.traces[k].keys[i], g.traces[k].answers[i])
    ensures CurrentOk(cfg, g', k, g.traces[k].keys[i], g.traces[k].answers[i])
  {
    var d, b := g.traces[k].keys[i], g.traces[k].answers[i];
    assert g'.traces[k].keys[i] == d;
    EdgeAt(cfg, w, g, k, i);
    CurrentAt(cfg, w, g, k, i);
    SameLeaves(g.recs, q, rec);
    if d == q && cfg.Evicts() {
      RestoredFresh(cfg, w, g, q, t, rec);
      CurrentFresh(cfg, w, g, k);
      FreshUnique(cfg.prog, RecordLeaves(g.recs), RecordLeaves(g.recs), q, rec.answer, b);
    }
    hide Inv; hide Fresh; hide Replays; hide DepsOk; hide InLabelOrder; hide AllCurrent;
    if Settled(w, g, d) { SettledStays(w, g, g', d); }
  }

  lemma RestoreRuns(cfg: Config, w: World, g: Graph, g': Graph, q: Key, x: Key)
    requires Inv(cfg, w, g) && Grows(w, g, g', q) && q !in g.recs && q.Query?
    ensures RunOk(w, g', x)
  {
    assert RunOk(w, g, x);
    if g.runs[x] > 0 {
      SettledStays(w, g, g', x);
      if x in g.start && !g.start[x].untracked {
        var d :| d in g.start[x].deps && Checked(w, g, d) && Moved(g, d, g.start[x].verifiedAt);
        if Settled(w, g, d) { SettledStays(w, g, g', d); assert d != q; }
        assert Checked(w, g', d) && Moved(g', d, g.start[x].verifiedAt);
      }
    }
  }

  lemma RestoreRecord(cfg: Config, w: World, g: Graph, q: Key, t: Trace, rec: Record, g': Graph, k: Key)
    requires Inv(cfg, w, g) && Restorable(cfg, w, g, q, t, rec) && g' == Restored(g, q, t, rec, g'.rank, g'.top)
    requires k in g'.recs
    ensures StampsOk(g', k) && SinceOk(w, g', k)
    ensures (k.Query? ==> TraceOk(cfg, g', k) && KnownOk(g', k)) && (k.Resource? ==> ResourceOk(cfg, w, g', k))
  {
    hide Inv; hide Replays; hide DepsOk; hide InLabelOrder; hide AllCurrent; hide Supports;
    StartStored(cfg, w, g, q);
    if k != q { InvAt(cfg, w, g, k); }
  }

  lemma RestoreGrows(cfg: Config, w: World, g: Graph, q: Key, t: Trace, rec: Record, g': Graph)
    requires Inv(cfg, w, g) && Restorable(cfg, w, g, q, t, rec) && g' == Restored(g, q, t, rec, g'.rank, g'.top)
    ensures Grows(w, g, g', q) && Step(w, g, g')
  {
    hide Inv; hide Replays; hide DepsOk; hide InLabelOrder; hide AllCurrent; hide Supports;
    StartStored(cfg, w, g, q);
  }

  /** Where nothing had moved, a restored record is what a fresh database would have. */
  lemma RestoreSteady(cfg: Config, w: World, g: Graph, q: Key, t: Trace, rec: Record, g': Graph)
    requires Inv(cfg, w, g) && Restorable(cfg, w, g, q, t, rec) && g' == Restored(g, q, t, rec, g'.rank, g'.top)
    ensures SteadyBy(cfg, w, g, g', q)
  {
    if SteadyStart(cfg, w, g) {
      SteadyNow(cfg, w, g, q);
      InputsKept(cfg, w, g);
      var l := WorldLeaves(cfg, w, InputsOf(g.start));
      forall i | 0 <= i < |t.keys| ensures Fresh(cfg.prog, l, t.keys[i], t.answers[i]) {
        assert Supports(cfg, g, t.keys[i], t.answers[i]);
        SteadyFresh(cfg, w, g, t.keys[i]);
      }
      hide Inv; hide Fresh;
      FreshReplay(cfg.prog, l, q, t, rec.answer);
    }
  }

  lemma SteadyFresh(cfg: Config, w: World, g: Graph, d: Key)
    requires Inv(cfg, w, g) && SteadyStart(cfg, w, g) && d in g.recs
    ensures !g.recs[d].unconfirmed && Fresh(cfg.prog, WorldLeaves(cfg, w, InputsOf(g.start)), d, g.recs[d].answer)
  {
    SteadyNow(cfg, w, g, d);
    InvAt(cfg, w, g, d);
    InputsKept(cfg, w, g);
    hide Inv; hide Fresh;
    if !d.Query? {
      assert d.Input? ==> d in InputsOf(g.recs) && g.recs[d].answer == Val(InputsOf(g.recs)[d]);
      assert d.Resource? ==> WorldAnswer(cfg, w, d) == g.recs[d].answer;
      LeafFresh(cfg.prog, WorldLeaves(cfg, w, InputsOf(g.start)), d, g.recs[d].answer);
    }
  }

  /** A record restored over what supports it is as good as one just executed. */
  lemma RestoreStep(cfg: Config, w: World, g: Graph, q: Key, t: Trace, rec: Record) returns (g': Graph)
    requires Inv(cfg, w, g) && Restorable(cfg, w, g, q, t, rec)
    ensures g' == Restored(g, q, t, rec, g'.rank, g'.top) && Inv(cfg, w, g') && Grows(w, g, g', q) && Step(w, g, g')
    ensures g' == g.(recs := g.recs[q := rec], traces := g'.traces, rank := g'.rank, top := g'.top, blind := g'.blind)
    ensures !cfg.Evicts() ==> g' == RestoredOnTop(g, q, t, rec)
  {
    hide BumpOk; hide EdgeOk; hide ClosedOk; hide CurrentOk; hide RunOk; hide DepsOk; hide InLabelOrder;
    hide Grows; hide Step; hide StampsOk; hide SinceOk; hide KnownOk; hide ResourceOk; hide SteadyOk;
    hide RanksFall;
    if cfg.Evicts() {
      g' := DepthFalls(cfg, w, g, q, t, rec);
    } else {
      OnTopFalls(cfg, w, g, q, t, rec);
      g' := RestoredOnTop(g, q, t, rec);
    }
    RestoreGrows(cfg, w, g, q, t, rec, g');
    RestoreSteady(cfg, w, g, q, t, rec, g');
    GrowsKeeps(cfg, w, g, g', q);
    RankedBelow(g');
    forall k | k in g'.recs
      ensures StampsOk(g', k) && SinceOk(w, g', k)
      ensures k.Query? ==> TraceOk(cfg, g', k) && KnownOk(g', k)
      ensures k.Resource? ==> ResourceOk(cfg, w, g', k)
    {
      RestoreRecord(cfg, w, g, q, t, rec, g', k);
    }
    forall k, i | k in g'.recs && k.Query? && 0 <= i < |g'.traces[k].keys|
      ensures EdgeOk(cfg, g', k, g'.traces[k].keys[i], g'.traces[k].answers[i])
      ensures ClosedOk(w, g', k, g'.traces[k].keys[i], g'.traces[k].answers[i])
      ensures CurrentOk(cfg, g', k, g'.traces[k].keys[i], g'.traces[k].answers[i])
    {
      TraceAt(cfg, w, g', k);
      if k == q {
        RestoredOwnEdge(cfg, w, g, q, t, rec, g', i);
      } else {
        RestoredEdges(cfg, w, g, q, t, rec, g', k, i);
      }
    }
    AnswersDetermined(cfg, w, g, g');
  }

  lemma RankedBelow(g: Graph)
    requires RanksFall(g)
    ensures forall i: nat {:trigger g.rank(i)} :: g.rank(i) < g.top
  {}

  lemma GrowsKeeps(cfg: Config, w: World, g: Graph, g': Graph, q: Key)
    requires Inv(cfg, w, g) && Grows(w, g, g', q) && Step(w, g, g') && q !in g.recs && q.Query?
    requires SteadyBy(cfg, w, g, g', q)
    ensures RunsOk(w, g') && BumpOk(w, g') && SteadyOk(cfg, w, g')
    ensures cfg.Valid() && g'.req >= 0 && g'.first <= g'.rev && forall k :: k in g'.start ==> k in g'.recs
  {
    hide RunOk; hide Step;
    forall x ensures RunOk(w, g', x) { RestoreRuns(cfg, w, g, g', q, x); }
    forall k | k in g'.start ensures k in g'.recs { StartStored(cfg, w, g, k); assert k != q ==> Same(g, g', k); }
    BumpKept(w, g, g');
    SteadyKept(cfg, w, g, g', q);
  }

  lemma TraceAt(cfg: Config, w: World, g: Graph, k: Key)
    requires k in g.recs && TraceOk(cfg, g, k)
    ensures k in g.traces && |g.traces[k].keys| == |g.traces[k].answers|
  {}

  lemma AnswersDetermined(cfg: Config, w: World, g: Graph, g': Graph)
    requires Inv(cfg, w, g) && forall k: Key :: k.Resource? && k in g'.recs ==> ResourceOk(cfg, w, g', k)
    ensures cfg.Valid() && forall r :: r in g'.recs && r.Resource? ==>
      g'.recs[r].answer == cfg.outcome(r.id, g'.recs[r].probe)
  {}

  // ---------------------------------------------------------------------------------------------
  // Dropped records

  /** Nothing stored reads `q`. */
  predicate Unread(recs: map<Key, Record>, q: Key) {
    forall k :: k in recs ==> q !in recs[k].deps
  }

  ghost function Dropped(g: Graph, q: Key): Graph {
    g.(recs := g.recs - {q}, known := g.known - {q})
  }

  lemma DropEdge(cfg: Config, w: World, g: Graph, q: Key, k: Key, i: nat)
    requires Inv(cfg, w, g) && Unread(g.recs, q) && q.Query? && !Settled(w, g, q)
    requires k in g.recs && k != q && k.Query? && k in g.traces && i < |g.traces[k].keys| == |g.traces[k].answers|
    ensures EdgeOk(cfg, Dropped(g, q), k, g.traces[k].keys[i], g.traces[k].answers[i])
    ensures ClosedOk(w, Dropped(g, q), k, g.traces[k].keys[i], g.traces[k].answers[i])
  {
    var d := g.traces[k].keys[i];
    InvAt(cfg, w, g, k);
    EdgeAt(cfg, w, g, k, i);
    hide Inv; hide Replays; hide InLabelOrder;
    if !d.Ambient? { assert d in g.recs[k].deps; }
  }

  lemma CurrentAt(cfg: Config, w: World, g: Graph, k: Key, i: nat)
    requires Inv(cfg, w, g)
    requires k in g.recs && k.Query? && k in g.traces && i < |g.traces[k].keys| == |g.traces[k].answers|
    ensures CurrentOk(cfg, g, k, g.traces[k].keys[i], g.traces[k].answers[i])
  {}

  lemma DropLeaves(recs: map<Key, Record>, q: Key)
    requires q.Query?
    ensures Extends(RecordLeaves(recs), RecordLeaves(recs - {q}))
  {}

  lemma DropCurrent(cfg: Config, w: World, g: Graph, q: Key, k: Key, i: nat)
    requires Inv(cfg, w, g) && q.Query?
    requires k in g.recs && k != q && k.Query? && k in g.traces && i < |g.traces[k].keys| == |g.traces[k].answers|
    ensures CurrentOk(cfg, Dropped(g, q), k, g.traces[k].keys[i], g.traces[k].answers[i])
  {
    var d, a := g.traces[k].keys[i], g.traces[k].answers[i];
    CurrentAt(cfg, w, g, k, i);
    hide Inv; hide Fresh;
    DropLeaves(g.recs, q);
    if Fresh(cfg.prog, RecordLeaves(g.recs), d, a) {
      FreshExtends(cfg.prog, RecordLeaves(g.recs), RecordLeaves(g.recs - {q}), d, a);
    }
  }

  lemma DropRuns(w: World, g: Graph, q: Key, x: Key)
    requires RunOk(w, g, x) && q.Query? && !Settled(w, g, q) && q !in g.start
    ensures RunOk(w, Dropped(g, q), x)
  {
    var g' := Dropped(g, q);
    if g.runs[x] > 0 {
      assert x != q;
      if x in g.start && !g.start[x].untracked {
        var d :| d in g.start[x].deps && Checked(w, g, d) && Moved(g, d, g.start[x].verifiedAt);
        assert Checked(w, g', d) && Moved(g', d, g'.start[x].verifiedAt);
      }
    }
  }

  lemma DropRecord(cfg: Config, w: World, g: Graph, q: Key, k: Key)
    requires Inv(cfg, w, g) && q.Query? && k in g.recs && k != q
    ensures var g' := Dropped(g, q);
            && StampsOk(g', k) && SinceOk(w, g', k)
            && (k.Query? ==> TraceOk(cfg, g', k) && KnownOk(g', k)) && (k.Resource? ==> ResourceOk(cfg, w, g', k))
  {
    InvAt(cfg, w, g, k);
  }

  /** A query record that came up in this request and is not settled can go, if nothing reads it. */
  lemma DropStep(cfg: Config, w: World, g: Graph, q: Key)
    requires Inv(cfg, w, g) && q.Query? && !Settled(w, g, q) && q !in g.start && Unread(g.recs, q)
    ensures Inv(cfg, w, Dropped(g, q))
  {
    hide Step; hide KnownOk; hide InLabelOrder; hide SinceOk; hide ResourceOk; hide SteadyOk; hide BumpOk;
    hide EdgeOk; hide ClosedOk; hide CurrentOk; hide RunOk; hide Unread;
    var g' := Dropped(g, q);
    forall k | k in g'.recs
      ensures StampsOk(g', k) && SinceOk(w, g', k)
      ensures k.Query? ==> TraceOk(cfg, g', k) && KnownOk(g', k)
      ensures k.Resource? ==> ResourceOk(cfg, w, g', k)
    {
      DropRecord(cfg, w, g, q, k);
    }
    forall k, i | k in g'.recs && k.Query? && 0 <= i < |g'.traces[k].keys|
      ensures EdgeOk(cfg, g', k, g'.traces[k].keys[i], g'.traces[k].answers[i])
      ensures ClosedOk(w, g', k, g'.traces[k].keys[i], g'.traces[k].answers[i])
      ensures CurrentOk(cfg, g', k, g'.traces[k].keys[i], g'.traces[k].answers[i])
    {
      InvAt(cfg, w, g, k);
      DropEdge(cfg, w, g, q, k, i);
      DropCurrent(cfg, w, g, q, k, i);
    }
    forall x ensures RunOk(w, g', x) { DropRuns(w, g, q, x); }
    BumpBeside(cfg, w, g, g');
    SteadyBeside(cfg, w, g, g');
  }
}
