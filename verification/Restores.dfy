/** Restoring a record from a checkpoint: when it may be stored, what storing it keeps, and where a request
    is not followed further.
 */
module Restores {
  import opened Options
  import opened Programs
  import opened Graphs
  import opened SavedRecords
  import opened Steps
  import opened Demand
  import opened Nesting

  /** Why a request is not followed further: a restore stores a record, or takes one back, where the
      invariant does not reach.
      `Overtaken`: after all dependencies were looked at, one of them carries another answer, or the query
      itself has come to have a record; the revision moved meanwhile, because something was found changed.
      `Contradicted`: the query has come to have a record, and depends on what counts as changed always.
      `Unchecked`: records can be evicted, a dependency has not been brought up to date in this request, and
      not every record is as of the revision as it is.
      `Running`: the query is being executed for the first time.
      `Discarded`: bringing it up to date raised, after another record was restored over it. */
  datatype Stop =
    | Overtaken(key: Key)
    | Contradicted(key: Key)
    | Unchecked(key: Key)
    | Running(key: Key)
    | Discarded(key: Key)

  /** What is kept of a request that stopped: the state in which the restore began, for each dependency the
      state in which it was found good, and the execution stack. */
  datatype Evidence = Evidence(began: Graph, seen: map<Key, Graph>, stack: seq<Key>)

  /** What holds where a request stopped. */
  ghost predicate StopOk(cfg: Config, w: World, g: Graph, c: Checkpoint, stop: Stop, e: Evidence) {
    && stop.key in c
    && match stop
       case Overtaken(q) =>
         && Restoring(cfg, w, g, c, q, e) && e.began.rev < g.rev && (exists k :: Shifted(w, g, k))
         && (q in g.recs || !AllCarry(g.recs, c[q].deps))
       case Contradicted(q) =>
         && Restoring(cfg, w, g, c, q, e) && q in g.recs
         && exists d :: d in c[q].deps && d in g.recs && Wavers(g.recs[d])
       case Unchecked(q) =>
         && Restoring(cfg, w, g, c, q, e) && cfg.Evicts() && q !in g.recs
         && !AllUsable(g.recs, g.req, c[q].deps) && !AllStanding(g.recs, g.rev, c[q].deps)
       case Running(q) => Restoring(cfg, w, g, c, q, e) && q !in g.recs && q in e.stack
       case Discarded(q) => q in g.recs && !Settled(w, g, q) && !Unread(g.recs, q)
  }

  /** The reasons that remain where the calls go down a rank: records can be evicted, or a dependency moved while
      it was restored. */
  predicate Spared(stop: Option<Stop>, recs: map<Key, Record>) {
    stop.Some? && (stop.value.Unchecked? || (stop.value.Overtaken? && stop.value.key !in recs))
  }

  /** The request stopped while `stack`, and more on top of it, was being executed. */
  ghost predicate Halted(cfg: Config, w: World, g: Graph, c: Checkpoint, stop: Stop, e: Evidence, stack: seq<Key>) {
    StopOk(cfg, w, g, c, stop, e) && stack <= e.stack
  }

  lemma HaltsHere(cfg: Config, w: World, g: Graph, c: Checkpoint, stop: Stop, e: Evidence)
    requires StopOk(cfg, w, g, c, stop, e)
    ensures Halted(cfg, w, g, c, stop, e, e.stack)
  {}

  lemma HaltsBelow(cfg: Config, w: World, g: Graph, c: Checkpoint, stop: Option<Stop>, e: Evidence, stack: seq<Key>,
      q: Key)
    requires stop.Some? ==> Halted(cfg, w, g, c, stop.value, e, stack + [q])
    ensures stop.Some? ==> Halted(cfg, w, g, c, stop.value, e, stack)
  {}

  /** It succeeded, or was spared. */
  predicate Fine(ok: bool, stop: Option<Stop>, recs: map<Key, Record>) {
    ok || Spared(stop, recs)
  }

  /** The record of `q` was about to be restored: there was none when that began, and each dependency was good
      when it was looked at. */
  ghost predicate Restoring(cfg: Config, w: World, g: Graph, c: Checkpoint, q: Key, e: Evidence)
    requires q in c
  {
    && Inv(cfg, w, e.began) && Step(w, e.began, g) && q !in e.began.recs && !c[q].untracked
    && AllSeen(w, e.began, g, c[q].deps, e.seen) && e.seen.Keys == c[q].deps.Keys
  }

  /** Those looked at so far carried what was written down for them, each in its own state on the way. */
  ghost predicate AllSeen(w: World, g: Graph, g': Graph, deps: map<Key, Answer>, seen: map<Key, Graph>) {
    forall d :: d in seen ==>
      d in deps && Carries(seen[d].recs, d, deps[d]) && Step(w, g, seen[d]) && Step(w, seen[d], g')
  }

  lemma SeenMore(w: World, g: Graph, g1: Graph, g2: Graph, keys: set<Key>, deps: map<Key, Answer>,
      seen: map<Key, Graph>, d: Key)
    requires Advances(w, g, g1, keys) && Advances(w, g1, g2, keys) && AllSeen(w, g, g1, deps, seen) && d in deps
    ensures Carries(g2.recs, d, deps[d]) ==> AllSeen(w, g, g2, deps, seen[d := g2])
    ensures AllSeen(w, g, g2, deps, seen)
  {
    hide Step; hide Advances;
    StepOf(w, g, g1, keys);
    StepOf(w, g1, g2, keys);
    StepTransitive(w, g, g1, g2);
    forall k | k in seen ensures Step(w, seen[k], g2) { StepTransitive(w, seen[k], g1, g2); }
    StepSelf(w, g2);
  }

  lemma StepOf(w: World, g: Graph, g': Graph, keys: set<Key>)
    requires Advances(w, g, g', keys)
    ensures Step(w, g, g')
  {}

  lemma StepSelf(w: World, g: Graph)
    ensures Step(w, g, g)
  {}

  /** The kinds in the order in which saved dependencies are listed. */
  function KindOf(k: Key): nat {
    match k
    case Input(_) => 0
    case Query(_) => 1
    case Resource(_) => 2
    case Ambient(_) => 3
  }

  /** What has been looked at is a first part of the dependencies: inputs before queries, and those before
      resources. */
  ghost predicate KindByKind(deps: set<Key>, seen: set<Key>) {
    forall d, e :: d in seen && e in deps && (e.Input? || e.Query?) && !d.Input? && (e.Query? ==> !d.Query?) ==>
      e in seen
  }

  method NextByKind(rest: set<Key>) returns (d: Key)
    requires rest != {}
    ensures d in rest && forall e :: e in rest ==> KindOf(d) <= KindOf(e)
  {
    if k :| k in rest && KindOf(k) == 0 { return k; }
    if k :| k in rest && KindOf(k) == 1 { return k; }
    if k :| k in rest && KindOf(k) == 2 { return k; }
    d :| d in rest;
  }

  predicate AllUsable(recs: map<Key, Record>, req: int, deps: map<Key, Answer>) {
    forall d :: d in deps ==> UpToDate(recs, req, d)
  }

  /** Every query record is as of revision `rev`, and every dependency stands. */
  predicate AllStanding(recs: map<Key, Record>, rev: nat, deps: map<Key, Answer>) {
    AllCurrent(recs, rev) && forall d :: d in deps && d in recs ==> !recs[d].unconfirmed
  }

  /** What keeps the record of `q` from being stored, now that every dependency was good when it was looked
      at. `moved`: the revision did meanwhile. `running`: `q` is being executed. */
  function Obstacle(cfg: Config, recs: map<Key, Record>, req: int, rev: nat, c: Checkpoint, moved: bool, running: bool,
      q: Key): Option<Stop>
    requires q in c
  {
    var deps := c[q].deps;
    if !AllCarry(recs, deps) || (q in recs && moved) then Some(Overtaken(q))
    else if q in recs then
      if exists d :: d in deps && d in recs && Wavers(recs[d]) then Some(Contradicted(q)) else None
    else if running then Some(Running(q))
    else if cfg.Evicts() && !AllUsable(recs, req, deps) && !AllStanding(recs, rev, deps) then Some(Unchecked(q))
    else None
  }

  /** A reader counts it as changed, whatever its stamp. */
  predicate Wavers(r: Record) {
    r.untracked || r.unconfirmed
  }

  /** `d` carries the answer that was written down for it. */
  predicate Carries(recs: map<Key, Record>, d: Key, expected: Answer) {
    d in recs && recs[d].answer == expected
  }

  /** `d` has been brought up to date in request `req`, and a reader may rely on it. */
  predicate UpToDate(recs: map<Key, Record>, req: int, d: Key) {
    d in recs && (d.Input? || (recs[d].checkedIn == req && !Wavers(recs[d])))
  }

  predicate AllCarry(recs: map<Key, Record>, deps: map<Key, Answer>) {
    forall d :: d in deps ==> Carries(recs, d, deps[d])
  }

  lemma UpToDateSettled(cfg: Config, w: World, g: Graph, d: Key)
    requires Inv(cfg, w, g) && UpToDate(g.recs, g.req, d)
    ensures Settled(w, g, d) && Now(w, g, d) == g.recs[d].answer && !d.Ambient?
  {
    AtRecord(cfg, w, g, d);
  }

  // ---------------------------------------------------------------------------------------------
  // A query that ran while its dependencies were looked at

  /** Two executions of a body over the same answers are the same execution. */
  lemma SameExecution(b: Body, t: Trace, a: Answer, t': Trace, a': Answer)
    requires Replays(b, t, a) && Replays(b, t', a')
    requires forall i, j :: 0 <= i < |t.keys| && 0 <= j < |t'.keys| && t.keys[i] == t'.keys[j] ==>
      t.answers[i] == t'.answers[j]
    ensures t == t' && a == a'
  {
    var n := |t.keys|;
    SameUpTo(b, t, a, t', a', n);
    ReplayAt(b, t, a, n);
    ReplayAt(b, t', a', n);
    assert t.answers[..n] == t.answers && t.keys[..n] == t.keys;
    assert t'.answers[..n] == t'.answers && t'.keys[..n] == t'.keys;
  }

  lemma {:induction false} SameUpTo(b: Body, t: Trace, a: Answer, t': Trace, a': Answer, n: nat)
    requires Replays(b, t, a) && Replays(b, t', a') && n <= |t.keys|
    requires forall i, j :: 0 <= i < |t.keys| && 0 <= j < |t'.keys| && t.keys[i] == t'.keys[j] ==>
      t.answers[i] == t'.answers[j]
    ensures n <= |t'.keys| && t.answers[..n] == t'.answers[..n] && t.keys[..n] == t'.keys[..n]
  {
    if n > 0 {
      SameUpTo(b, t, a, t', a', n - 1);
      ReplayAt(b, t, a, n - 1);
      ReplayAt(b, t', a', n - 1);
      OneLonger(t.answers, t'.answers, n - 1);
      OneLonger(t.keys, t'.keys, n - 1);
    }
  }

  lemma OneLonger<T>(s: seq<T>, s': seq<T>, n: nat)
    requires n < |s| && n < |s'| && s[..n] == s'[..n] && s[n] == s'[n]
    ensures s[..n + 1] == s'[..n + 1]
  {
    assert s[..n + 1] == s[..n] + [s[n]] && s'[..n + 1] == s'[..n] + [s'[n]];
  }

  /** A query that ran meanwhile over the saved answers produced what was saved. */
  lemma RanAsSaved(cfg: Config, w: World, g: Graph, q: Key, s: Saved)
    requires Inv(cfg, w, g) && q.Query? && q in g.recs && g.recs[q].checkedIn == g.req && SavedSound(cfg.prog, q, s)
    requires AllCarry(g.recs, s.deps) && forall d :: d in s.deps ==>
      !d.Ambient? && d in g.recs && !g.recs[d].unconfirmed
    ensures g.recs[q].answer == s.answer
  {
    assert TraceOk(cfg, g, q);
    var t := g.traces[q];
    var t' :| Replays(cfg.prog[q.id], t', s.answer) && AnswersOf(t', s.deps);
    forall i, j | 0 <= i < |t.keys| && 0 <= j < |t'.keys| && t.keys[i] == t'.keys[j]
      ensures t.answers[i] == t'.answers[j]
    {
      assert ClosedOk(w, g, q, t.keys[i], t.answers[i]);
      assert t'.keys[j] in s.deps && Carries(g.recs, t'.keys[j], s.deps[t'.keys[j]]);
    }
    SameExecution(cfg.prog[q.id], t, g.recs[q].answer, t', s.answer);
  }

  /** A query that came to have a record meanwhile carries what was saved: it ran over the saved answers,
      or was itself restored. */
  lemma OvertakenCarries(cfg: Config, w: World, g: Graph, g': Graph, kept: set<Key>, q: Key, s: Saved)
    requires Inv(cfg, w, g') && Advances(w, g, g', kept) && q.Query? && q !in g.recs && q in g'.recs
    requires SavedSound(cfg.prog, q, s) && (q in g.saved ==> g.saved[q] == s.answer)
    requires AllCarry(g'.recs, s.deps)
    requires forall d :: d in s.deps ==> !d.Ambient? && (d in g'.recs ==> !g'.recs[d].unconfirmed)
    ensures Carries(g'.recs, q, s.answer)
  {
    forall d | d in s.deps ensures d in g'.recs { assert Carries(g'.recs, d, s.deps[d]); }
    if g'.recs[q].checkedIn == g'.req {
      RanAsSaved(cfg, w, g', q, s);
    }
  }

  lemma SavedSame(w: World, g: Graph, g': Graph, kept: set<Key>)
    requires Advances(w, g, g', kept)
    ensures g'.saved == g.saved && g'.first == g.first && g.rev <= g'.rev
  {}

  /** While the revision stands, what carried an answer carries it still. */
  lemma StillCarries(w: World, g: Graph, g': Graph, kept: set<Key>)
    requires Advances(w, g, g', kept)
    ensures g.rev <= g'.rev
    ensures g'.rev == g.rev ==> forall d, a {:trigger Carries(g'.recs, d, a)} :: Carries(g.recs, d, a) ==>
      Carries(g'.recs, d, a)
  {}

  // ---------------------------------------------------------------------------------------------
  // Storing a record

  ghost predicate Storable(cfg: Config, g: Graph, q: Key, s: Saved, t: Trace, deps: seq<Key>) {
    && q.Query? && q.id in cfg.prog && q !in g.recs && !s.untracked && g.req >= 0
    && Replays(cfg.prog[q.id], t, s.answer) && AnswersOf(t, s.deps)
    && AllCarry(g.recs, s.deps) && (forall d :: d in s.deps ==> !d.Ambient?)
    && InLabelOrder(cfg.labelOf, deps) && forall d :: d in deps <==> d in s.deps
  }

  lemma SavedTrace(cfg: Config, g: Graph, q: Key, s: Saved, deps: seq<Key>) returns (t: Trace)
    requires q.Query? && q !in g.recs && !s.untracked && g.req >= 0 && SavedSound(cfg.prog, q, s)
    requires AllCarry(g.recs, s.deps) && (forall d :: d in s.deps ==> !d.Ambient?)
    requires InLabelOrder(cfg.labelOf, deps) && forall d :: d in deps <==> d in s.deps
    ensures Storable(cfg, g, q, s, t, deps)
  {
    hide Replays; hide AnswersOf;
    t :| Replays(cfg.prog[q.id], t, s.answer) && AnswersOf(t, s.deps);
  }

  /** The dependencies as a record lists them. */
  method LabelOrdered(labelOf: Key -> int, keys: set<Key>) returns (deps: seq<Key>)
    ensures forall d :: d in deps <==> d in keys
    ensures InLabelOrder(labelOf, deps)
  {
    deps := [];
    var rest := keys;
    while rest != {}
      invariant rest <= keys && (forall d :: d in deps <==> d in keys && d !in rest) && InLabelOrder(labelOf, deps)
    {
      var d :| d in rest;
      InsertKeepsOrder(labelOf, deps, d);
      deps := InsertByLabel(labelOf, deps, d);
      rest := rest - {d};
    }
  }

  function RestoredRecord(a: Answer, rev: nat, deps: seq<Key>, checkedIn: int): Record {
    Record(a, rev, rev, deps, false, 0, checkedIn, false)
  }

  lemma TraceRestorable(cfg: Config, w: World, g: Graph, q: Key, s: Saved, t: Trace, deps: seq<Key>)
    requires Storable(cfg, g, q, s, t, deps) && q in g.saved && g.saved[q] == s.answer
    requires cfg.Evicts() ==> AllStanding(g.recs, g.rev, s.deps)
    ensures Restorable(cfg, w, g, q, t, RestoredRecord(s.answer, g.rev, deps, -1))
  {
    hide AllCurrent;
    forall i | 0 <= i < |t.keys| ensures Carries(g.recs, t.keys[i], t.answers[i]) && !t.keys[i].Ambient? {
      assert t.keys[i] in s.deps;
    }
  }

  /** A record that read one node, which carries what it read. */
  lemma OneReadRestorable(cfg: Config, w: World, g: Graph, q: Key, d: Key, a: Answer, a': Answer)
    requires !cfg.Evicts() && q.Query? && q.id in cfg.prog && q !in g.recs && q in g.saved && g.saved[q] == a'
    requires Replays(cfg.prog[q.id], Trace([d], [a]), a') && !d.Ambient? && d in g.recs && g.recs[d].answer == a
    ensures Restorable(cfg, w, g, q, Trace([d], [a]), RestoredRecord(a', g.rev, [d], -1))
  {
    hide Replays;
    var t := Trace([d], [a]);
    assert t.keys[0] == d && forall k :: k in t.keys <==> k == d;
  }

  /** Over dependencies brought up to date, the saved execution is as good as one just made. */
  lemma TraceExecuted(cfg: Config, w: World, g: Graph, q: Key, s: Saved, t: Trace, deps: seq<Key>)
    requires Inv(cfg, w, g) && Storable(cfg, g, q, s, t, deps)
    requires AllUsable(g.recs, g.req, s.deps)
    ensures Executed(cfg, w, g, q, t, s.answer, RestoredRecord(s.answer, g.rev, deps, g.req))
  {
    hide Inv;
    forall i | 0 <= i < |t.keys|
      ensures Settled(w, g, t.keys[i]) && Now(w, g, t.keys[i]) == t.answers[i] && !t.keys[i].Ambient?
    {
      assert t.keys[i] in s.deps && Carries(g.recs, t.keys[i], t.answers[i]);
      UpToDateSettled(cfg, w, g, t.keys[i]);
    }
  }

  lemma GrowsAdvances(w: World, g: Graph, g': Graph, q: Key, keys: set<Key>)
    requires Step(w, g, g') && (forall k :: k != q ==> Same(g, g', k)) && q !in keys && g'.known == g.known
    ensures Advances(w, g, g', keys)
  {}

  // ---------------------------------------------------------------------------------------------
  // Taking one back

  /** Relative to a state in which `q` had no record, dropping it only goes back. */
  lemma DropAdvances(w: World, g: Graph, g': Graph, q: Key, keys: set<Key>)
    requires Advances(w, g, g', keys) && q !in g.recs && q !in keys
    ensures Advances(w, g, Dropped(g', q), keys)
  {
    var g'' := Dropped(g', q);
    forall k | Settled(w, g, k) ensures Same(g, g'', k) { assert Same(g, g', k); }
    forall k | k in keys ensures Same(g, Dropped(g', q), k) { assert Same(g, g', k); }
  }

  /** A query that came up since `g` and is not settled was restored. */
  lemma UnsettledIsSaved(w: World, g: Graph, g': Graph, keys: set<Key>, q: Key)
    requires Advances(w, g, g', keys) && q !in g.recs
    ensures g'.saved == g.saved
    ensures q in g'.recs && !Settled(w, g', q) ==> q in g.saved && g'.recs[q].answer == g.saved[q]
  {}

  // ---------------------------------------------------------------------------------------------
  // When every restore succeeds

  /** `part` holds tracked records of the checkpoint with all they depend on, and everything these were
      computed from still reads as saved, as far as the records and the world tell. */
  ghost predicate Intact(cfg: Config, w: World, g: Graph, c: Checkpoint, pinned: set<Key>, part: set<Key>) {
    forall k :: k in part ==>
      k in c && !c[k].untracked && forall d :: d in c[k].deps ==> Unmoved(cfg, w, g, c, pinned, part, d, c[k].deps[d])
  }

  ghost predicate Unmoved(cfg: Config, w: World, g: Graph, c: Checkpoint, pinned: set<Key>, part: set<Key>, d: Key,
      expected: Answer)
  {
    && expected.Val? && (!d.Input? ==> d in pinned) && (d.Query? ==> d in part)
    && (if d in g.recs then g.recs[d].answer == expected && (cfg.Evicts() ==> UpToDate(g.recs, g.req, d))
        else if d.Resource? then WorldAnswer(cfg, w, d) == expected
        else d.Query? && d in c && c[d].answer == expected)
  }

  /** What comes of looking at an unmoved dependency. */
  lemma UnmovedMeans(cfg: Config, w: World, g: Graph, c: Checkpoint, pinned: set<Key>, part: set<Key>, d: Key,
      expected: Answer)
    ensures Unmoved(cfg, w, g, c, pinned, part, d, expected) ==>
      && (d in g.recs ==> Carries(g.recs, d, expected))
      && (d !in g.recs ==> !d.Input? && d in pinned)
      && (d !in g.recs && d.Query? ==> d in part && d in c && c[d].answer == expected)
  {}

  lemma IntactAt(cfg: Config, w: World, g: Graph, c: Checkpoint, pinned: set<Key>, part: set<Key>, k: Key, d: Key)
    requires k in part && k in c && d in c[k].deps
    ensures Intact(cfg, w, g, c, pinned, part) ==> Unmoved(cfg, w, g, c, pinned, part, d, c[k].deps[d])
  {}

  lemma PartSaved(cfg: Config, w: World, g: Graph, c: Checkpoint, pinned: set<Key>, part: set<Key>, k: Key)
    ensures Intact(cfg, w, g, c, pinned, part) && k in part ==> k in c && !c[k].untracked
  {}

  lemma IntactPinned(cfg: Config, w: World, g: Graph, c: Checkpoint, pinned: set<Key>, part: set<Key>, k: Key)
    requires k in c
    ensures Intact(cfg, w, g, c, pinned, part) && k in part ==> forall d :: d in c[k].deps && d.Query? ==> d in pinned
  {
    forall d | Intact(cfg, w, g, c, pinned, part) && k in part && d in c[k].deps ensures d.Query? ==> d in pinned {
      IntactAt(cfg, w, g, c, pinned, part, k, d);
    }
  }

  /** Everything `part` was computed from reads as saved, and none of it is running. */
  ghost predicate AtRest(cfg: Config, w: World, g: Graph, c: Checkpoint, pinned: set<Key>, part: set<Key>,
      running: set<Key>)
  {
    Intact(cfg, w, g, c, pinned, part) && part !! running
  }

  lemma RestingAt(cfg: Config, w: World, g: Graph, c: Checkpoint, pinned: set<Key>, part: set<Key>, running: set<Key>,
      k: Key, d: Key)
    requires AtRest(cfg, w, g, c, pinned, part, running) && k in part && k in c && d in c[k].deps
    ensures Unmoved(cfg, w, g, c, pinned, part, d, c[k].deps[d])
  {
    IntactAt(cfg, w, g, c, pinned, part, k, d);
  }

  lemma RestingSaved(cfg: Config, w: World, g: Graph, c: Checkpoint, pinned: set<Key>, part: set<Key>,
      running: set<Key>, k: Key)
    requires AtRest(cfg, w, g, c, pinned, part, running) && k in part
    ensures k in c && !c[k].untracked && k !in running && forall d :: d in c[k].deps && d.Query? ==> d in pinned
  {
    PartSaved(cfg, w, g, c, pinned, part, k);
    IntactPinned(cfg, w, g, c, pinned, part, k);
  }

  /** `k` is in `part`, or a leaf something in it was computed from. */
  ghost predicate Concerns(c: Checkpoint, part: set<Key>, k: Key) {
    k in part || (!k.Query? && exists p :: p in part && p in c && k in c[p].deps)
  }

  /** Whatever of that has a record has been brought up to date. */
  ghost predicate AllUpToDate(g: Graph, c: Checkpoint, part: set<Key>) {
    forall k :: k in g.recs && Concerns(c, part, k) ==> UpToDate(g.recs, g.req, k)
  }

  /** The record of `k`, once stored, has to be up to date in this request. */
  ghost predicate ReliedOn(cfg: Config, w: World, g: Graph, c: Checkpoint, pinned: set<Key>, part: set<Key>, k: Key) {
    (k.Query? ==> k in part) && Intact(cfg, w, g, c, pinned, part) && (cfg.Evicts() || AllUpToDate(g, c, part))
  }

  /** No body ran, and the new query records are numbered below `n`. */
  ghost predicate Smooth(c: Checkpoint, part: set<Key>, g: Graph, g': Graph, order: map<Key, nat>, n: nat) {
    && g'.rev == g.rev && g'.runs == g.runs && g'.req == g.req
    && (forall k: Key :: k.Query? && k in g'.recs && k !in g.recs ==> k in order && order[k] < n)
    && (AllUpToDate(g, c, part) ==> AllUpToDate(g', c, part))
  }

  lemma SmoothStill(c: Checkpoint, part: set<Key>, g: Graph, order: map<Key, nat>, n: nat)
    ensures Smooth(c, part, g, g, order, n)
  {}

  lemma SmoothTwice(c: Checkpoint, part: set<Key>, g: Graph, g': Graph, g'': Graph, order: map<Key, nat>, n: nat,
      m: nat, k: nat)
    requires n <= k && m <= k
    ensures Smooth(c, part, g, g', order, n) && Smooth(c, part, g', g'', order, m) ==> Smooth(c, part, g, g'', order, k)
  {
    hide AllUpToDate;
  }

  /** One more step of a restore at rest. */
  lemma SmoothMore(c: Checkpoint, part: set<Key>, g: Graph, g': Graph, g'': Graph, order: map<Key, nat>, n: nat, m: nat)
    requires Smooth(c, part, g, g', order, n) && Smooth(c, part, g', g'', order, m) && m <= n
    ensures Smooth(c, part, g, g'', order, n)
  {
    hide AllUpToDate;
  }

  lemma SmoothMisses(c: Checkpoint, part: set<Key>, g: Graph, g': Graph, order: map<Key, nat>, q: Key)
    requires q.Query? && q !in g.recs && q in order
    ensures Smooth(c, part, g, g', order, order[q]) ==> g'.rev == g.rev && q !in g'.recs
  {}

  lemma SmoothSettles(cfg: Config, w: World, c: Checkpoint, part: set<Key>, g: Graph, g': Graph, order: map<Key, nat>,
      n: nat, q: Key)
    requires Inv(cfg, w, g') && Smooth(c, part, g, g', order, n) && AllUpToDate(g, c, part) && q in g'.recs && q in part
    ensures Settled(w, g', q) && g'.rev == g.rev && g'.runs == g.runs
  {
    UpToDateSettled(cfg, w, g', q);
  }

  /** One new record that says what was saved, or what the world says, leaves the checkpoint intact. */
  lemma StoredIntact(cfg: Config, w: World, g: Graph, g': Graph, c: Checkpoint, pinned: set<Key>, part: set<Key>,
      order: map<Key, nat>, x: Key, n: nat)
    requires x !in g.recs && (forall k :: k != x ==> Same(g, g', k)) && g'.req == g.req && g'.rev == g.rev
    requires g'.runs == g.runs && (x in g'.recs && x.Query? ==> x in order && order[x] < n)
    requires x in g'.recs && x.Query? ==> x in c && Carries(g'.recs, x, c[x].answer)
    requires x in g'.recs && x.Resource? ==> g'.recs[x].answer == WorldAnswer(cfg, w, x)
    requires x in g'.recs && ReliedOn(cfg, w, g, c, pinned, part, x) ==> UpToDate(g'.recs, g'.req, x)
    ensures Intact(cfg, w, g, c, pinned, part) ==>
      Intact(cfg, w, g', c, pinned, part) && Smooth(c, part, g, g', order, n)
  {
    forall k | k != x ensures (k in g.recs <==> k in g'.recs) && (k in g.recs ==> g'.recs[k] == g.recs[k]) {
      assert Same(g, g', k);
    }
    forall k, d | Intact(cfg, w, g, c, pinned, part) && k in part && k in c && d in c[k].deps
      ensures Unmoved(cfg, w, g', c, pinned, part, d, c[k].deps[d])
    {
      IntactAt(cfg, w, g, c, pinned, part, k, d);
    }
  }

  /** Query objects play no part in it. */
  lemma LearnIntact(cfg: Config, w: World, g: Graph, g': Graph, c: Checkpoint, pinned: set<Key>, part: set<Key>)
    requires g' == g.(known := g'.known)
    ensures Intact(cfg, w, g, c, pinned, part) ==> Intact(cfg, w, g', c, pinned, part)
  {
    forall k, d | Intact(cfg, w, g, c, pinned, part) && k in part && k in c && d in c[k].deps
      ensures Unmoved(cfg, w, g', c, pinned, part, d, c[k].deps[d])
    {
      IntactAt(cfg, w, g, c, pinned, part, k, d);
    }
  }

  /** Where it matters, what carries the saved answer has been brought up to date. */
  lemma IntactChecked(cfg: Config, w: World, g: Graph, c: Checkpoint, pinned: set<Key>, part: set<Key>, q: Key)
    requires q in c && q.Query? && AllCarry(g.recs, c[q].deps)
    ensures ReliedOn(cfg, w, g, c, pinned, part, q) ==> AllUsable(g.recs, g.req, c[q].deps)
  {
    forall d | ReliedOn(cfg, w, g, c, pinned, part, q) && d in c[q].deps
      ensures UpToDate(g.recs, g.req, d)
    {
      if q in part { IntactAt(cfg, w, g, c, pinned, part, q, d); }
      assert Carries(g.recs, d, c[q].deps[d]);
    }
  }

  /** A resource met for the first time stands for what the world holds. */
  lemma LoadedIntact(cfg: Config, w: World, g: Graph, g': Graph, c: Checkpoint, pinned: set<Key>, part: set<Key>,
      order: map<Key, nat>, r: Key, expected: Answer, n: nat)
    requires Inv(cfg, w, g') && r.Resource? && r !in g.recs && (forall k :: k != r ==> Same(g, g', k))
    requires g'.req == g.req && g'.rev == g.rev && g'.runs == g.runs
    requires r in g'.recs ==> g'.recs[r].checkedIn == g'.req
    requires r !in g'.recs ==> w.probe(r.id).None?
    requires Unmoved(cfg, w, g, c, pinned, part, r, expected)
    ensures Carries(g'.recs, r, expected) && expected.Val?
    ensures Intact(cfg, w, g, c, pinned, part) ==>
      Intact(cfg, w, g', c, pinned, part) && Smooth(c, part, g, g', order, n)
  {
    hide Intact; hide Smooth;
    if r in g'.recs {
      AtRecord(cfg, w, g', r);
      assert UpToDate(g'.recs, g'.req, r) by { hide Inv; }
    }
    hide Inv;
    StoredIntact(cfg, w, g, g', c, pinned, part, order, r, n);
  }

  /** What storing the record of `q` last keeps of a restore that began in `g`. */
  lemma Installed(cfg: Config, w: World, g: Graph, g1: Graph, g2: Graph, c: Checkpoint, pinned: set<Key>,
      part: set<Key>, order: map<Key, nat>, q: Key, keys: set<Key>)
    requires Advances(w, g, g1, keys) && Step(w, g1, g2) && (forall k :: k != q ==> Same(g1, g2, k)) && q !in keys
    requires q.Query? && q in c && q in order && q !in g1.recs && Carries(g2.recs, q, c[q].answer)
    requires g2.known == g1.known && g2.rev == g1.rev && g2.runs == g1.runs
    requires ReliedOn(cfg, w, g1, c, pinned, part, q) ==> UpToDate(g2.recs, g2.req, q)
    ensures Advances(w, g, g2, keys)
    ensures Intact(cfg, w, g1, c, pinned, part) ==> Intact(cfg, w, g2, c, pinned, part)
    ensures Intact(cfg, w, g1, c, pinned, part) && Smooth(c, part, g, g1, order, order[q]) ==>
      Smooth(c, part, g, g2, order, order[q] + 1)
  {
    hide Advances; hide Intact; hide Smooth; hide AllUpToDate;
    StoredIntact(cfg, w, g1, g2, c, pinned, part, order, q, order[q] + 1);
    SmoothTwice(c, part, g, g1, g2, order, order[q], order[q] + 1, order[q] + 1);
    GrowsAdvances(w, g1, g2, q, keys);
    AdvancesTwice(w, g, g1, g2, keys);
  }

  /** Where an obstacle is met the reason holds; otherwise the record may be stored, or stands with the saved
      answer. */
  lemma ObstacleStops(cfg: Config, w: World, g: Graph, g1: Graph, keys: set<Key>, c: Checkpoint,
      seen: map<Key, Graph>, stack: seq<Key>, q: Key)
    requires Advances(w, g, g1, keys) && q in c && q.Query? && q !in g.recs && !c[q].untracked
    requires g1.rev == g.rev ==> AllCarry(g1.recs, c[q].deps)
    requires Inv(cfg, w, g) && Inv(cfg, w, g1) && SavedSound(cfg.prog, q, c[q]) && g1.saved == AnswersIn(c)
    requires forall d :: d in c[q].deps ==> !d.Ambient?
    requires AllSeen(w, g, g1, c[q].deps, seen) && seen.Keys == c[q].deps.Keys
    ensures var stop := Obstacle(cfg, g1.recs, g1.req, g1.rev, c, g1.rev != g.rev, q in stack, q);
            && (stop.Some? ==> StopOk(cfg, w, g1, c, stop.value, Evidence(g, seen, stack)))
            && (stop.None? && q in g1.recs ==> Carries(g1.recs, q, c[q].answer))
            && (stop.None? && q !in g1.recs ==> AllCarry(g1.recs, c[q].deps) && q !in stack)
            && (stop.None? && q !in g1.recs && cfg.Evicts() ==>
                  AllUsable(g1.recs, g1.req, c[q].deps) || AllStanding(g1.recs, g1.rev, c[q].deps))
  {
    hide SavedSound; hide AllCarry; hide UpToDate; hide AllSeen; hide AllUsable; hide AllStanding;
    hide Advances; hide Step; hide Inv;
    MovedRev(cfg, w, g, g1, keys);
    SavedSame(w, g, g1, keys);
    var stop := Obstacle(cfg, g1.recs, g1.req, g1.rev, c, g1.rev != g.rev, q in stack, q);
    if stop.None? && q in g1.recs {
      assert AllCarry(g1.recs, c[q].deps);
      StandingDeps(g1, c, q);
      OvertakenCarries(cfg, w, g, g1, keys, q, c[q]);
    }
  }

  /** What is known of a restore about to be completed. */
  lemma AboutToStore(cfg: Config, w: World, depth: nat -> nat, g: Graph, g1: Graph, keys: set<Key>, c: Checkpoint,
      seen: map<Key, Graph>, stack: seq<Key>, q: Key)
    requires Advances(w, g, g1, keys) && q in c && q.Query? && q !in g.recs && !c[q].untracked
    requires g1.rev == g.rev ==> AllCarry(g1.recs, c[q].deps)
    requires Inv(cfg, w, g) && Inv(cfg, w, g1) && SavedSound(cfg.prog, q, c[q]) && g1.saved == AnswersIn(c)
    requires forall d :: d in c[q].deps ==> !d.Ambient?
    requires AllSeen(w, g, g1, c[q].deps, seen) && seen.Keys == c[q].deps.Keys && (q in keys <==> q in stack)
    requires Goes(cfg, w, depth, g, g1, q, keys, true, depth(q.id))
    ensures var stop := Obstacle(cfg, g1.recs, g1.req, g1.rev, c, g1.rev != g.rev, q in stack, q);
            && (stop.Some? ==> Halted(cfg, w, g1, c, stop.value, Evidence(g, seen, stack), stack))
            && Goes(cfg, w, depth, g, g1, q, keys, Fine(stop.None?, stop, g1.recs), depth(q.id) + 1)
            && (stop.None? && q in g1.recs ==> Carries(g1.recs, q, c[q].answer))
            && (stop.None? && q !in g1.recs ==> AllCarry(g1.recs, c[q].deps) && q !in keys)
            && (stop.None? && q !in g1.recs && cfg.Evicts() ==>
                  AllUsable(g1.recs, g1.req, c[q].deps) || AllStanding(g1.recs, g1.rev, c[q].deps))
  {
    hide SavedSound; hide AllCarry; hide AllSeen; hide AllUsable; hide AllStanding; hide Advances; hide Step; hide Inv;
    hide StopOk; hide Obstacle; hide Falls; hide Carries; hide Confined;
    ObstacleStops(cfg, w, g, g1, keys, c, seen, stack, q);
    NotComeUp(cfg, w, depth, g, g1, q, keys);
    GoesWider(cfg, w, depth, g, g1, q, keys, true, depth(q.id), depth(q.id) + 1);
    if q !in g1.recs && q !in stack { ObstacleExcused(cfg, g1.recs, g1.req, g1.rev, c, g1.rev != g.rev, q); }
  }

  lemma StandingDeps(g: Graph, c: Checkpoint, q: Key)
    requires q in c
    ensures (forall d :: d in c[q].deps && d in g.recs ==> !Wavers(g.recs[d])) ==>
      forall d :: d in c[q].deps && d in g.recs ==> !g.recs[d].unconfirmed
    ensures g.saved == AnswersIn(c) && q in g.saved ==> g.saved[q] == c[q].answer
  {}

  /** A revision that moved moved because something was found changed. */
  lemma MovedRev(cfg: Config, w: World, g: Graph, g1: Graph, keys: set<Key>)
    requires Inv(cfg, w, g) && Inv(cfg, w, g1) && Advances(w, g, g1, keys)
    ensures Step(w, g, g1) && g.first <= g.rev <= g1.rev
    ensures g1.rev != g.rev ==> exists k :: Shifted(w, g1, k)
  {
    assert BumpOk(w, g1);
  }

  /** If the query has no record, and is not running, there are two reasons left. */
  lemma ObstacleExcused(cfg: Config, recs: map<Key, Record>, req: int, rev: nat, c: Checkpoint, moved: bool, q: Key)
    requires q in c && q !in recs
    ensures var stop := Obstacle(cfg, recs, req, rev, c, moved, false, q);
            stop.Some? ==> stop.value.key == q && (stop.value.Overtaken? || stop.value.Unchecked?)
  {}

  /** The dependencies a record was saved with lie below it. */
  lemma SavedFalls(cfg: Config, w: World, g: Graph, depth: nat -> nat, q: Key, s: Saved, d: Key, keys: set<Key>)
    requires SavedSound(cfg.prog, q, s) && q.Query? && d in s.deps && d.Query?
    ensures Falls(cfg, w, g, depth, q, keys) ==> Falls(cfg, w, g, depth, d, keys) && depth(d.id) < depth(q.id)
  {
    var t :| Replays(cfg.prog[q.id], t, s.answer) && AnswersOf(t, s.deps);
    var i :| 0 <= i < |t.keys| && t.keys[i] == d;
    assert cfg.prog[q.id].step(t.answers[..i]) == Ask(d);
    if Falls(cfg, w, g, depth, q, keys) {
      assert CallOk(cfg.prog, depth, w, g.start.Keys, q.id, d);
    }
  }

  /** `s` is what the checkpoint holds of `q`, which had no record when the request began. */
  ghost predicate SavedHere(g: Graph, q: Key, s: Saved) {
    q !in g.start && q in g.saved && g.saved[q] == s.answer
  }

  lemma DepGoes(cfg: Config, w: World, depth: nat -> nat, g: Graph, g': Graph, q: Key, s: Saved, d: Key,
      keys: set<Key>, fine: bool)
    requires SavedSound(cfg.prog, q, s) && q.Query? && d in s.deps && SavedHere(g', q, s)
    requires d.Query? ==> Goes(cfg, w, depth, g, g', d, keys, fine, depth(d.id) + 1)
    requires !d.Query? ==> fine && Beside(cfg, w, g, g', d)
    ensures Goes(cfg, w, depth, g, g', q, keys, fine, depth(q.id))
  {
    var t :| Replays(cfg.prog[q.id], t, s.answer) && AnswersOf(t, s.deps);
    NarrowRecord(cfg, w, g, g', q, t, d);
    hide SavedSound; hide Falls; hide Narrow;
    if d.Query? { SavedFalls(cfg, w, g', depth, q, s, d, keys); }
  }

  /** How far the dependencies of `q` have been looked at: those not in `rest` were good, and if the revision stands
      they carry their answers still. */
  ghost predicate Looked(cfg: Config, w: World, depth: nat -> nat, g: Graph, g': Graph, q: Key, keys: set<Key>,
      deps: map<Key, Answer>, rest: set<Key>, seen: map<Key, Graph>, fine: bool)
  {
    && Advances(w, g, g', keys) && (g'.rev == g.rev ==> CarryBut(g'.recs, deps, rest)) && AllSeen(w, g, g', deps, seen)
    && Goes(cfg, w, depth, g, g', q, keys, fine, depth(q.id))
    && rest <= deps.Keys && seen.Keys == deps.Keys - rest && KindByKind(deps.Keys, seen.Keys)
  }

  /** What comes of looking at one dependency. */
  ghost predicate OneLooked(cfg: Config, w: World, depth: nat -> nat, g: Graph, g': Graph, d: Key, keys: set<Key>,
      expected: Answer, good: bool, fine: bool)
  {
    && Advances(w, g, g', keys) && (good ==> Carries(g'.recs, d, expected))
    && (if d.Query? then Goes(cfg, w, depth, g, g', d, keys, fine, depth(d.id) + 1)
        else fine && Beside(cfg, w, g, g', d))
  }

  lemma NothingLooked(cfg: Config, w: World, depth: nat -> nat, g: Graph, q: Key, keys: set<Key>,
      deps: map<Key, Answer>)
    ensures Looked(cfg, w, depth, g, g, q, keys, deps, deps.Keys, map[], true)
  {}

  lemma RestListed(cfg: Config, w: World, depth: nat -> nat, g: Graph, g': Graph, q: Key, keys: set<Key>,
      deps: map<Key, Answer>, rest: set<Key>, seen: map<Key, Graph>, fine: bool, d: Key)
    requires Looked(cfg, w, depth, g, g', q, keys, deps, rest, seen, fine) && d in rest
    ensures d in deps
  {}

  lemma LookedStill(cfg: Config, w: World, depth: nat -> nat, g: Graph, g1: Graph, running: set<Key>,
      held: map<Key, nat>, q: Key, deps: map<Key, Answer>, rest: set<Key>, seen: map<Key, Graph>)
    requires InRequest(cfg, w, g, running, held, {}) && Inv(cfg, w, g1)
    requires Looked(cfg, w, depth, g, g1, q, held.Keys + running, deps, rest, seen, true)
    ensures InRequest(cfg, w, g1, running, held, {})
  {
    StillInRequest(cfg, w, g, g1, running, held, {});
  }

  /** One more dependency has been looked at. */
  lemma LookedMore(cfg: Config, w: World, depth: nat -> nat, g: Graph, g1: Graph, g2: Graph, q: Key, s: Saved,
      keys: set<Key>, rest: set<Key>, seen: map<Key, Graph>, d: Key, good: bool, fine: bool)
    requires Looked(cfg, w, depth, g, g1, q, keys, s.deps, rest, seen, true)
    requires SavedSound(cfg.prog, q, s) && q.Query? && d in rest && forall e :: e in rest ==> KindOf(d) <= KindOf(e)
    requires d in s.deps && OneLooked(cfg, w, depth, g1, g2, d, keys, s.deps[d], good, fine) && SavedHere(g, q, s)
    ensures Looked(cfg, w, depth, g, g2, q, keys, s.deps, rest, seen, fine)
    ensures good ==> Looked(cfg, w, depth, g, g2, q, keys, s.deps, rest - {d}, seen[d := g2], fine)
  {
    hide AllSeen; hide Goes; hide Carries; hide SavedSound; hide Beside;
    SameStart(w, g, g1, keys);
    SameStart(w, g1, g2, keys);
    DepGoes(cfg, w, depth, g1, g2, q, s, d, keys, fine);
    GoesOn(cfg, w, depth, g, g1, g2, q, keys, true, fine, depth(q.id));
    OneMoreGood(w, g, g1, g2, keys, s.deps, rest, d);
    SeenMore(w, g, g1, g2, keys, s.deps, seen, d);
  }

  lemma AllLooked(cfg: Config, w: World, depth: nat -> nat, g: Graph, g': Graph, q: Key, keys: set<Key>,
      deps: map<Key, Answer>, rest: set<Key>, seen: map<Key, Graph>, good: bool, fine: bool)
    requires Looked(cfg, w, depth, g, g', q, keys, deps, rest, seen, fine) && (good <==> rest == {})
    ensures Advances(w, g, g', keys) && AllSeen(w, g, g', deps, seen) && KindByKind(deps.Keys, seen.Keys)
    ensures good && g'.rev == g.rev ==> AllCarry(g'.recs, deps)
    ensures good <==> seen.Keys == deps.Keys
    ensures Goes(cfg, w, depth, g, g', q, keys, fine, depth(q.id))
  {
    hide AllSeen; hide Goes; hide Advances; hide KindOf; hide Carries;
  }

  lemma NoObstacle(cfg: Config, w: World, g: Graph, g1: Graph, c: Checkpoint, pinned: set<Key>, part: set<Key>,
      order: map<Key, nat>, q: Key)
    requires q in c && q in order && q.Query? && q !in g.recs && q in part
    requires g1.rev == g.rev ==> AllCarry(g1.recs, c[q].deps)
    requires Smooth(c, part, g, g1, order, order[q]) && Intact(cfg, w, g1, c, pinned, part)
    ensures Obstacle(cfg, g1.recs, g1.req, g1.rev, c, g1.rev != g.rev, false, q).None? && q !in g1.recs
  {
    SmoothMisses(c, part, g, g1, order, q);
    IntactChecked(cfg, w, g1, c, pinned, part, q);
  }

  /** All but the dependencies in `rest` carry what was written down for them. */
  ghost predicate CarryBut(recs: map<Key, Record>, deps: map<Key, Answer>, rest: set<Key>) {
    forall d :: d in deps && d !in rest ==> Carries(recs, d, deps[d])
  }

  /** One more dependency was good. */
  lemma OneMoreGood(w: World, g: Graph, g1: Graph, g2: Graph, keys: set<Key>, deps: map<Key, Answer>, rest: set<Key>,
      d: Key)
    requires Advances(w, g, g1, keys) && Advances(w, g1, g2, keys) && d in deps
    requires g1.rev == g.rev ==> CarryBut(g1.recs, deps, rest)
    ensures Advances(w, g, g2, keys)
    ensures g2.rev == g.rev ==> CarryBut(g2.recs, deps, rest)
    ensures Carries(g2.recs, d, deps[d]) && g2.rev == g.rev ==> CarryBut(g2.recs, deps, rest - {d})
  {
    hide Advances; hide Carries;
    StillCarries(w, g, g1, keys);
    StillCarries(w, g1, g2, keys);
    AdvancesTwice(w, g, g1, g2, keys);
  }
}
