/** Verification inside verification: which queries are running or held, and what every step keeps of
    them.
 */
module Nesting {
  import opened Options
  import opened Sequences
  import opened Programs
  import opened Graphs
  import opened Steps
  import opened Demand

  /** Keeps `deps` free of duplicates and ordered by label. */
  function InsertByLabel(labelOf: Key -> int, deps: seq<Key>, k: Key): (r: seq<Key>)
    ensures forall d :: d in r <==> d in deps || d == k
  {
    if k in deps then deps
    else if deps == [] || labelOf(k) < labelOf(deps[0]) then [k] + deps
    else [deps[0]] + InsertByLabel(labelOf, deps[1..], k)
  }

  lemma {:induction false} InsertKeepsOrder(labelOf: Key -> int, deps: seq<Key>, k: Key)
    requires InLabelOrder(labelOf, deps)
    ensures InLabelOrder(labelOf, InsertByLabel(labelOf, deps, k))
  {
    if k !in deps && deps != [] && labelOf(deps[0]) <= labelOf(k) {
      InsertKeepsOrder(labelOf, deps[1..], k);
      var r := InsertByLabel(labelOf, deps[1..], k);
      forall i | 0 <= i < |r| ensures labelOf(deps[0]) <= labelOf(r[i]) {
        assert r[i] in r;
        if r[i] != k { var j :| 0 <= j < |deps[1..]| && deps[1..][j] == r[i]; }
      }
    }
  }

  /** Queries under verification, each with the position of the dependency it waits for. Everything
      before that position has passed; the one waited for is `cur`, or has a record and is itself
      under verification or running. */
  ghost predicate HeldOk(w: World, g: Graph, running: set<Key>, held: map<Key, nat>, cur: set<Key>) {
    forall v :: v in held ==>
      && v.Query? && v in g.recs && !Settled(w, g, v) && !g.recs[v].untracked && v !in running
      && held[v] < |g.recs[v].deps|
      && (forall j :: 0 <= j < held[v] ==> Passing(w, g, g.recs[v].deps[j], g.recs[v].verifiedAt))
      && (var p := g.recs[v].deps[held[v]]; p in cur || (p.Query? && p in g.recs && (p in held || p in running)))
  }

  ghost predicate RunningOk(prog: Prog, w: World, g: Graph, running: set<Key>) {
    forall s :: s in running ==> s.Query? && s.id in prog && !Settled(w, g, s) && s in g.known
  }

  /** The state inside a request: `running` on the execution stack, `held` under verification. */
  ghost predicate InRequest(cfg: Config, w: World, g: Graph, running: set<Key>, held: map<Key, nat>, cur: set<Key>) {
    Inv(cfg, w, g) && RunningOk(cfg.prog, w, g, running) && HeldOk(w, g, running, held, cur)
  }

  /** What a step keeps of the nodes in `keys` and of everything settled. */
  ghost predicate Advances(w: World, g: Graph, g': Graph, keys: set<Key>) {
    Step(w, g, g') && Kept(g, g', keys) && forall k :: k in keys && k in g.known ==> k in g'.known
  }

  lemma StandsStill(w: World, g: Graph, keys: set<Key>)
    ensures Advances(w, g, g, keys)
  {}

  lemma AdvancesTwice(w: World, g: Graph, g': Graph, g'': Graph, keys: set<Key>)
    requires Advances(w, g, g', keys) && Advances(w, g', g'', keys)
    ensures Advances(w, g, g'', keys)
  {
    StepTransitive(w, g, g', g'');
    forall k | k in keys ensures Same(g, g'', k) { assert Same(g, g', k) && Same(g', g'', k); }
  }

  lemma ChangeAdvances(w: World, g: Graph, g': Graph, x: Key, keys: set<Key>)
    requires Change(w, g, g', x) && x !in keys
    ensures Advances(w, g, g', keys) && Settled(w, g', x)
  {}

  lemma StillInRequest(cfg: Config, w: World, g: Graph, g': Graph, running: set<Key>, held: map<Key, nat>,
      cur: set<Key>)
    requires InRequest(cfg, w, g, running, held, cur) && Inv(cfg, w, g') && Advances(w, g, g', held.Keys + running)
    ensures InRequest(cfg, w, g', running, held, cur) && g.rev <= g'.rev
  {
    hide Inv;
    forall v | v in held
      ensures Same(g, g', v) && !Settled(w, g', v)
      ensures forall j :: 0 <= j < held[v] ==> Passing(w, g', g.recs[v].deps[j], g.recs[v].verifiedAt)
    {
      assert Same(g, g', v);
      forall j | 0 <= j < held[v] ensures Passing(w, g', g.recs[v].deps[j], g.recs[v].verifiedAt) {
        assert Same(g, g', g.recs[v].deps[j]);
      }
    }
    forall s | s in running ensures !Settled(w, g', s) { assert Same(g, g', s); }
  }

  /** `d` is settled and gives a reader verified at `since` a reason to run. */
  ghost predicate MovedPast(w: World, g: Graph, d: Key, since: nat) {
    d in g.recs && Settled(w, g, d) && (g.recs[d].untracked || g.recs[d].unconfirmed || g.recs[d].changedAt > since)
  }

  lemma InProgram(cfg: Config, w: World, g: Graph, q: Key)
    requires Inv(cfg, w, g) && q in g.recs && q.Query?
    ensures q.id in cfg.prog
  {
    assert TraceOk(cfg, g, q);
  }

  /** What the methods use of a single record. */
  lemma AtRecord(cfg: Config, w: World, g: Graph, k: Key)
    requires Inv(cfg, w, g) && k in g.recs
    ensures StampsOk(g, k) && (k.Input? ==> Settled(w, g, k))
    ensures k.Query? ==> TraceOk(cfg, g, k) && KnownOk(g, k)
    ensures k.Resource? ==> ResourceOk(cfg, w, g, k)
    ensures !Settled(w, g, k) && k in g.start ==> g.start[k] == g.recs[k]
  {
    assert StampsOk(g, k) && SinceOk(w, g, k);
  }

  /** Every body calls strictly down `depth`, never raises, and reads only inputs that are set and
      resources that can be observed or have been before. `leaves` are the ones with a record. */
  ghost predicate CallsDown(prog: Prog, depth: nat -> nat, w: World, leaves: set<Key>) {
    forall id, h {:trigger prog[id].step(h)} :: id in prog ==>
      match prog[id].step(h)
      case Done(_) => true
      case Raise => false
      case Ask(k) => CallOk(prog, depth, w, leaves, id, k)
  }

  ghost predicate CallOk(prog: Prog, depth: nat -> nat, w: World, leaves: set<Key>, id: nat, k: Key) {
    (k.Query? ==> k.id in prog && depth(k.id) < depth(id)) && Answers(w, leaves, k)
  }

  /** Reading the leaf `k` does not raise. */
  ghost predicate Answers(w: World, leaves: set<Key>, k: Key) {
    (k.Input? ==> k in leaves) && (k.Resource? ==> w.probe(k.id).Some? || k in leaves)
  }

  ghost predicate Above(depth: nat -> nat, q: Key, keys: set<Key>) {
    forall s :: s in keys ==> depth(s.id) > depth(q.id)
  }

  /** The dependency a query waits for can be brought up to date with the query itself held. */
  lemma Hold(cfg: Config, w: World, g: Graph, running: set<Key>, held: map<Key, nat>, q: Key, j: nat)
    requires InRequest(cfg, w, g, running, held, {q}) && q.Query? && q in g.recs && q !in held && q !in running
    requires !Settled(w, g, q) && !g.recs[q].untracked && j < |g.recs[q].deps|
    requires forall i :: 0 <= i < j ==> Passing(w, g, g.recs[q].deps[i], g.recs[q].verifiedAt)
    ensures InRequest(cfg, w, g, running, held[q := j], {g.recs[q].deps[j]})
  {
    hide Inv;
  }

  /** Meeting a query that is already under verification: its dependency in question is held or
      running too, so the call ends in the cycle error of whatever is running. */
  lemma Reentered(cfg: Config, w: World, g: Graph, running: set<Key>, held: map<Key, nat>, q: Key)
    requires InRequest(cfg, w, g, running, held, {q}) && q in held
    ensures q in g.recs && held[q] < |g.recs[q].deps|
    ensures forall i :: 0 <= i < held[q] ==> Passing(w, g, g.recs[q].deps[i], g.recs[q].verifiedAt)
    ensures var p := g.recs[q].deps[held[q]];
            p.Query? && p in g.recs && (p in held || p in running) && g.rank(p.id) < g.rank(q.id)
  {
    var p := g.recs[q].deps[held[q]];
    DependencyRank(cfg, w, g, q, p);
  }

  /** Either way, dependency `j` can be brought up to date with `q` held. */
  lemma Wait(cfg: Config, w: World, g: Graph, running: set<Key>, held: map<Key, nat>, q: Key, j: nat)
    requires InRequest(cfg, w, g, running, held, {q}) && q.Query? && q in g.recs && q !in running
    requires !Settled(w, g, q) && !g.recs[q].untracked && j < |g.recs[q].deps|
    requires forall i :: 0 <= i < j ==> Passing(w, g, g.recs[q].deps[i], g.recs[q].verifiedAt)
    requires q in held ==> j <= held[q]
    ensures InRequest(cfg, w, g, running, if q in held then held else held[q := j], {g.recs[q].deps[j]})
    ensures q in held ==> held[q] < |g.recs[q].deps|
    ensures q in held && j < held[q] ==> Passing(w, g, g.recs[q].deps[j], g.recs[q].verifiedAt)
    ensures q in held && j == held[q] ==>
      var p := g.recs[q].deps[j]; p.Query? && p in g.recs && (p in held || p in running)
  {
    if q in held {
      Reentered(cfg, w, g, running, held, q);
      WaitForAny(cfg, w, g, running, held, q, g.recs[q].deps[j]);
    } else {
      Hold(cfg, w, g, running, held, q, j);
    }
  }

  /** With `q` held, nothing waits for `q` from outside any more. */
  lemma WaitForAny(cfg: Config, w: World, g: Graph, running: set<Key>, held: map<Key, nat>, q: Key, d: Key)
    requires InRequest(cfg, w, g, running, held, {q}) && q in held
    ensures InRequest(cfg, w, g, running, held, {d})
  {}

  lemma HeldPosition(cfg: Config, w: World, g: Graph, running: set<Key>, held: map<Key, nat>, q: Key)
    requires InRequest(cfg, w, g, running, held, {q}) && q in held
    ensures q in g.recs && held[q] < |g.recs[q].deps|
  {}

  /** Nothing the request is busy with is called again, and every call is answered. */
  ghost predicate Falls(cfg: Config, w: World, g: Graph, depth: nat -> nat, q: Key, keys: set<Key>) {
    CallsDown(cfg.prog, depth, w, g.start.Keys) && q.id in cfg.prog && Above(depth, q, keys)
  }

  /** Records that were all current with each other, over resources that still read as recorded. */
  ghost predicate Quiet(w: World, recs: map<Key, Record>, keys: set<Key>) {
    forall k :: k in keys ==>
      && k in recs && !recs[k].untracked && !recs[k].unconfirmed
      && (k.Resource? ==> w.probe(k.id) == Some(recs[k].probe))
      && (k.Query? ==>
            forall d :: d in recs[k].deps ==> d in keys && d in recs && recs[d].changedAt <= recs[k].verifiedAt)
  }

  /** A quiet part of what the request found, whose edges fall along `depth`. */
  ghost predicate Calm(w: World, g: Graph, keys: set<Key>, depth: nat -> nat) {
    Quiet(w, g.start, keys) && keys !! g.blind && forall q :: q in keys && q.Query? ==> CalmAt(g, depth, q)
  }

  ghost predicate CalmAt(g: Graph, depth: nat -> nat, q: Key) {
    && q in g.start && q in g.began && DepsOk(g.start[q], g.began[q])
    && forall d :: d in g.start[q].deps && d.Query? ==> depth(d.id) < depth(q.id)
  }

  /** In a quiet part of the graph no body runs, and none has a reason to. */
  lemma {:induction false} CalmStill(cfg: Config, w: World, g: Graph, keys: set<Key>, depth: nat -> nat, q: Key)
    requires Inv(cfg, w, g) && Calm(w, g, keys, depth) && q in keys && q.Query?
    ensures g.runs[q] == 0 && !Reason(w, g, q) && q in g.recs
    decreases depth(q.id)
  {
    var since := g.start[q].verifiedAt;
    assert CalmAt(g, depth, q) && RunOk(w, g, q);
    forall d | d in g.start[q].deps ensures !Moved(g, d, since) {
      assert d in g.recs;
      assert SinceOk(w, g, d) && StampsOk(g, d);
      if d.Query? {
        CalmStill(cfg, w, g, keys, depth, d);
        assert CalmAt(g, depth, d) && TraceOk(cfg, g, d);
      }
    }
  }

  ghost predicate InCalm(w: World, g: Graph, calm: set<Key>, depth: nat -> nat, q: Key, keys: set<Key>) {
    q in calm && Calm(w, g, calm, depth) && Above(depth, q, keys)
  }

  /** What was calm when more was known to be blind was calm before. */
  lemma CalmBefore(w: World, g: Graph, g': Graph, calm: set<Key>, depth: nat -> nat, q: Key, keys: set<Key>)
    requires g'.start == g.start && g'.began == g.began && g.blind <= g'.blind && InCalm(w, g', calm, depth, q, keys)
    ensures InCalm(w, g, calm, depth, q, keys)
  {}

  /** Records, query objects and counters play no part in it. */
  lemma SureAgain(cfg: Config, w: World, g: Graph, g': Graph, depth: nat -> nat, calm: set<Key>, calmDepth: nat -> nat,
      q: Key, keys: set<Key>)
    requires g'.start == g.start && g'.began == g.began && g'.blind == g.blind
    ensures Falls(cfg, w, g', depth, q, keys) <==> Falls(cfg, w, g, depth, q, keys)
    ensures InCalm(w, g', calm, calmDepth, q, keys) <==> InCalm(w, g, calm, calmDepth, q, keys)
  {}

  lemma CalmStored(cfg: Config, w: World, g: Graph, g': Graph, kept: set<Key>, calm: set<Key>, depth: nat -> nat,
      q: Key, keys: set<Key>)
    requires Inv(cfg, w, g) && Advances(w, g, g', kept) && q.Query?
    ensures InCalm(w, g', calm, depth, q, keys) ==> q in g.recs && q.id in cfg.prog && !Reason(w, g, q)
    ensures InCalm(w, g', calm, depth, q, keys) ==> q !in keys
  {
    if InCalm(w, g', calm, depth, q, keys) {
      CalmBefore(w, g, g', calm, depth, q, keys);
      CalmStill(cfg, w, g, calm, depth, q);
      assert TraceOk(cfg, g, q);
    }
  }

  /** After an attempt to restore `q`, which had no record: it was not in a quiet part, and can be asked for. */
  lemma Tried(cfg: Config, w: World, g: Graph, g': Graph, running: set<Key>, held: map<Key, nat>, calm: set<Key>,
      depth: nat -> nat, q: Key)
    requires InRequest(cfg, w, g, running, held, {}) && Inv(cfg, w, g') && Advances(w, g, g', held.Keys + running)
    requires q.Query? && q !in g.recs
    ensures InRequest(cfg, w, g', running, held, {}) && !InCalm(w, g', calm, depth, q, held.Keys + running)
  {
    InvInRequest(cfg, w, g, running, held, {});
    StillInRequest(cfg, w, g, g', running, held, {});
    hide Inv; hide Advances; hide InCalm; hide InRequest;
    CalmStored(cfg, w, g, g', held.Keys + running, calm, depth, q, held.Keys + running);
  }

  /** What answers a query answers its dependencies: `g` is the state before they are looked at. */
  lemma LiveBelow(cfg: Config, w: World, g: Graph, g': Graph, kept: set<Key>, depth: nat -> nat, calm: set<Key>,
      calmDepth: nat -> nat, q: Key, d: Key, keys: set<Key>)
    requires Inv(cfg, w, g) && q.Query? && q in g.recs && !Settled(w, g, q) && d in g.recs[q].deps
    requires Advances(w, g, g', kept)
    ensures Falls(cfg, w, g', depth, q, keys) && d.Query? ==>
      Falls(cfg, w, g', depth, d, keys + {q}) && depth(d.id) < depth(q.id)
    ensures InCalm(w, g', calm, calmDepth, q, keys) && d.Query? ==> InCalm(w, g', calm, calmDepth, d, keys + {q})
  {
    if Falls(cfg, w, g', depth, q, keys) {
      DependencyBelow(cfg, w, g, depth, q, d, keys);
    }
    if InCalm(w, g', calm, calmDepth, q, keys) && d.Query? {
      AtRecord(cfg, w, g, q);
      assert CalmAt(g', calmDepth, q);
    }
  }

  /** The query records that are new lie below `n`. */
  ghost predicate Confined(depth: nat -> nat, g: Graph, g': Graph, n: nat) {
    forall k: Key :: k.Query? && k in g'.recs && k !in g.recs ==> depth(k.id) < n
  }

  /** Nothing was touched on the way from `g` to `g'` but what `q` needs; and if the calls go down from `q`, all went
      well and only records below `n` came up. */
  ghost predicate Goes(cfg: Config, w: World, depth: nat -> nat, g: Graph, g': Graph, q: Key, keys: set<Key>,
      fine: bool, n: nat)
  {
    && Narrow(cfg, w, g, g', q)
    && (Falls(cfg, w, g', depth, q, keys) ==> fine && Confined(depth, g, g', n))
  }

  lemma GoesStill(cfg: Config, w: World, depth: nat -> nat, g: Graph, q: Key, keys: set<Key>, n: nat)
    ensures Goes(cfg, w, depth, g, g, q, keys, true, n)
  {}

  lemma GoesOn(cfg: Config, w: World, depth: nat -> nat, g: Graph, g': Graph, g'': Graph, q: Key, keys: set<Key>,
      fine: bool, fine': bool, n: nat)
    requires OpeningOf(g'') == OpeningOf(g')
    requires Goes(cfg, w, depth, g, g', q, keys, fine, n) && Goes(cfg, w, depth, g', g'', q, keys, fine', n)
    ensures Goes(cfg, w, depth, g, g'', q, keys, fine && fine', n)
  {
    NarrowTwice(cfg, w, g, g', g'', q);
    hide Narrow;
  }

  lemma GoesFrom(cfg: Config, w: World, depth: nat -> nat, g: Graph, g': Graph, g'': Graph, q: Key, keys: set<Key>,
      fine: bool, n: nat)
    requires g'.recs == g.recs && g'.runs == g.runs && Goes(cfg, w, depth, g', g'', q, keys, fine, n)
    ensures Goes(cfg, w, depth, g, g'', q, keys, fine, n)
  {}

  /** The record of `q` itself may come up last. */
  lemma GoesUp(cfg: Config, w: World, depth: nat -> nat, g: Graph, g': Graph, g'': Graph, q: Key, keys: set<Key>,
      fine: bool, n: nat)
    requires OpeningOf(g'') == OpeningOf(g') && n <= depth(q.id) + 1
    requires forall k :: k != q ==> Same(g', g'', k) && g''.runs[k] <= g'.runs[k]
    requires Goes(cfg, w, depth, g, g', q, keys, fine, n)
    ensures Goes(cfg, w, depth, g, g'', q, keys, fine, depth(q.id) + 1)
  {
    NarrowAt(cfg, w, g', g'', q);
    NarrowTwice(cfg, w, g, g', g'', q);
    hide Narrow;
    forall k: Key | k in g''.recs && k !in g'.recs ensures k == q {
      assert k != q ==> Same(g', g'', k);
    }
  }

  lemma GoesChange(cfg: Config, w: World, depth: nat -> nat, g: Graph, g': Graph, g'': Graph, q: Key, keys: set<Key>,
      fine: bool, n: nat)
    requires Change(w, g', g'', q) && n <= depth(q.id) + 1 && Goes(cfg, w, depth, g, g', q, keys, fine, n)
    ensures Goes(cfg, w, depth, g, g'', q, keys, fine, depth(q.id) + 1)
  {
    GoesUp(cfg, w, depth, g, g', g'', q, keys, fine, n);
  }

  /** Reading or checking the leaf `r` touches no other node. */
  ghost predicate Beside(cfg: Config, w: World, g: Graph, g': Graph, r: Key) {
    Narrow(cfg, w, g, g', r) && forall k: Key :: k.Query? && k in g'.recs ==> k in g.recs
  }

  lemma BesideStill(cfg: Config, w: World, g: Graph, r: Key)
    ensures Beside(cfg, w, g, g, r)
  {}

  lemma ResourceBeside(cfg: Config, w: World, g: Graph, g': Graph, r: Key)
    requires !r.Query? && g'.runs == g.runs && forall k :: k != r ==> Same(g, g', k)
    ensures Beside(cfg, w, g, g', r)
  {
    NarrowAt(cfg, w, g, g', r);
    forall k: Key | k.Query? && k in g'.recs ensures k in g.recs { assert Same(g, g', k); }
  }

  /** What an attempt to bring `q` up to date comes to: if the calls go down from `q` all is fine, and no record came
      up above `q`; in a quiet part of the records it succeeds. */
  ghost predicate Delivered(cfg: Config, w: World, depth: nat -> nat, calm: set<Key>, calmDepth: nat -> nat, g: Graph,
      g': Graph, q: Key, keys: set<Key>, ok: bool, fine: bool)
  {
    && Goes(cfg, w, depth, g, g', q, keys, fine, depth(q.id) + 1)
    && (InCalm(w, g', calm, calmDepth, q, keys) ==> ok)
  }

  lemma DeliveredStill(cfg: Config, w: World, depth: nat -> nat, calm: set<Key>, calmDepth: nat -> nat, g: Graph,
      q: Key, keys: set<Key>)
    ensures Delivered(cfg, w, depth, calm, calmDepth, g, g, q, keys, true, true)
  {}

  lemma NotDelivered(cfg: Config, w: World, depth: nat -> nat, calm: set<Key>, calmDepth: nat -> nat, g: Graph,
      g': Graph, q: Key, keys: set<Key>, fine: bool)
    requires Goes(cfg, w, depth, g, g', q, keys, fine, depth(q.id) + 1) && !InCalm(w, g', calm, calmDepth, q, keys)
    ensures Delivered(cfg, w, depth, calm, calmDepth, g, g', q, keys, false, fine)
  {}

  lemma DeliveredOn(cfg: Config, w: World, depth: nat -> nat, calm: set<Key>, calmDepth: nat -> nat, g: Graph,
      g': Graph, g'': Graph, q: Key, keys: set<Key>, ok: bool, fine: bool)
    requires OpeningOf(g'') == OpeningOf(g')
    requires Delivered(cfg, w, depth, calm, calmDepth, g, g', q, keys, true, true)
    requires Delivered(cfg, w, depth, calm, calmDepth, g', g'', q, keys, ok, fine)
    ensures Delivered(cfg, w, depth, calm, calmDepth, g, g'', q, keys, ok, fine)
  {
    GoesOn(cfg, w, depth, g, g', g'', q, keys, true, fine, depth(q.id) + 1);
    hide Goes;
  }

  /** What comes of a query's dependency comes of the query. */
  lemma DependencyGoes(cfg: Config, w: World, g: Graph, g': Graph, kept: set<Key>, depth: nat -> nat, calm: set<Key>,
      calmDepth: nat -> nat, q: Key, d: Key, keys: set<Key>, ok: bool, fine: bool)
    requires Inv(cfg, w, g) && q.Query? && q in g.recs && !Settled(w, g, q) && d in g.recs[q].deps
    requires Advances(w, g, g', kept)
    requires d.Query? ==>
      && Goes(cfg, w, depth, g, g', d, keys + {q}, fine, depth(d.id) + 1)
      && (InCalm(w, g', calm, calmDepth, d, keys + {q}) ==> ok)
    requires !d.Query? ==> ok && fine && Beside(cfg, w, g, g', d)
    ensures Goes(cfg, w, depth, g, g', q, keys, fine, depth(q.id) + 1)
    ensures InCalm(w, g', calm, calmDepth, q, keys) ==> ok
  {
    UnsettledNoted(cfg, w, g, q);
    assert OpeningOf(g') == OpeningOf(g);
    NarrowRecord(cfg, w, g, g', q, g.traces[q], d);
    hide Inv; hide Advances; hide Falls; hide InCalm; hide Settled; hide Narrow;
    LiveBelow(cfg, w, g, g', kept, depth, calm, calmDepth, q, d, keys);
  }

  /** A query that has a record now had one, or came up below `n`; what is running is not above itself. */
  lemma NotComeUp(cfg: Config, w: World, depth: nat -> nat, g: Graph, g': Graph, q: Key, keys: set<Key>)
    requires Goes(cfg, w, depth, g, g', q, keys, true, depth(q.id)) && q.Query? && q !in g.recs
    ensures Falls(cfg, w, g', depth, q, keys) ==> q !in g'.recs && q !in keys
  {}

  lemma GoesWider(cfg: Config, w: World, depth: nat -> nat, g: Graph, g': Graph, q: Key, keys: set<Key>, fine: bool,
      n: nat, m: nat)
    requires Goes(cfg, w, depth, g, g', q, keys, fine, n) && n <= m
    ensures Goes(cfg, w, depth, g, g', q, keys, fine, m)
  {}

  lemma InvInRequest(cfg: Config, w: World, g: Graph, running: set<Key>, held: map<Key, nat>, cur: set<Key>)
    requires InRequest(cfg, w, g, running, held, cur)
    ensures Inv(cfg, w, g)
  {}

  lemma DependencyRank(cfg: Config, w: World, g: Graph, q: Key, p: Key)
    requires Inv(cfg, w, g) && q.Query? && q in g.recs && p in g.recs[q].deps
    ensures p.Query? ==> g.rank(p.id) < g.rank(q.id)
    ensures !p.Ambient?
  {
    assert TraceOk(cfg, g, q);
    var i :| 0 <= i < |g.traces[q].keys| && g.traces[q].keys[i] == p;
    assert EdgeOk(cfg, g, q, g.traces[q].keys[i], g.traces[q].answers[i]);
  }

  lemma DependencyBelow(cfg: Config, w: World, g: Graph, depth: nat -> nat, q: Key, p: Key, keys: set<Key>)
    requires Inv(cfg, w, g) && q.Query? && q in g.recs && p in g.recs[q].deps
    requires CallsDown(cfg.prog, depth, w, g.start.Keys) && Above(depth, q, keys)
    ensures p.Query? ==> p.id in cfg.prog && Above(depth, p, keys + {q}) && depth(p.id) < depth(q.id)
  {
    assert TraceOk(cfg, g, q);
    var t := g.traces[q];
    var i :| 0 <= i < |t.keys| && t.keys[i] == p;
    assert cfg.prog[q.id].step(t.answers[..i]) == Ask(p);
    assert CallOk(cfg.prog, depth, w, g.start.Keys, q.id, p);
  }

  lemma NotAboveItself(depth: nat -> nat, q: Key, keys: set<Key>)
    requires q in keys
    ensures !Above(depth, q, keys)
  {}

  /** What is known where a call for `q` begins. */
  lemma Entering(cfg: Config, w: World, depth: nat -> nat, g: Graph, running: set<Key>, held: map<Key, nat>, q: Key)
    requires InRequest(cfg, w, g, running, held, {})
    ensures Inv(cfg, w, g) && Advances(w, g, g, held.Keys + running)
    ensures Goes(cfg, w, depth, g, g, q, held.Keys + running, true, depth(q.id) + 1)
    ensures q in running ==> !Settled(w, g, q) && q in g.known
    ensures q in held ==> q in g.recs && !Settled(w, g, q)
    ensures q in g.start ==> q in g.recs
  {
    RunningUnsettled(cfg, w, g, running, held, {}, q);
    StartStored(cfg, w, g, q);
  }

  lemma RunningUnsettled(cfg: Config, w: World, g: Graph, running: set<Key>, held: map<Key, nat>, cur: set<Key>, q: Key)
    requires InRequest(cfg, w, g, running, held, cur)
    ensures q in running ==> !Settled(w, g, q) && q in g.known
    ensures q in held ==> q in g.recs && !Settled(w, g, q) && !g.recs[q].untracked
  {}

  // ---------------------------------------------------------------------------------------------
  // A verification in progress

  /** The first `j` dependencies of `q` have been checked since `g`: they passed, or one gave a reason to run. */
  ghost predicate CheckedTo(w: World, g: Graph, g': Graph, q: Key, keys: set<Key>, j: nat, ok: bool, dirty: bool)
    requires q in g.recs
  {
    && Advances(w, g, g', keys + {q}) && q in g'.recs && g'.recs[q] == g.recs[q] && !Settled(w, g', q)
    && j <= |g.recs[q].deps|
    && (ok && !dirty ==> forall i :: 0 <= i < j ==> Passing(w, g', g.recs[q].deps[i], g.recs[q].verifiedAt))
    && (ok && dirty ==> Reason(w, g', q))
  }

  /** And it all went as it should. */
  ghost predicate CheckedWell(cfg: Config, w: World, depth: nat -> nat, calm: set<Key>, calmDepth: nat -> nat,
      g: Graph, g': Graph, q: Key, keys: set<Key>, j: nat, ok: bool, dirty: bool, fine: bool)
    requires q in g.recs
  {
    && CheckedTo(w, g, g', q, keys, j, ok, dirty)
    && Delivered(cfg, w, depth, calm, calmDepth, g, g', q, keys, ok, fine)
  }

  lemma NothingChecked(cfg: Config, w: World, depth: nat -> nat, calm: set<Key>, calmDepth: nat -> nat, g: Graph,
      q: Key, keys: set<Key>)
    requires q in g.recs && !Settled(w, g, q)
    ensures CheckedWell(cfg, w, depth, calm, calmDepth, g, g, q, keys, 0, true, false, true)
  {}

  lemma CheckedOne(w: World, g: Graph, g': Graph, q: Key, keys: set<Key>, j: nat, ok: bool, changed: bool)
    requires q in g.recs && q.Query? && !Settled(w, g, q) && Advances(w, g, g', keys + {q}) && j < |g.recs[q].deps|
    requires forall i :: 0 <= i < j ==> Passing(w, g, g.recs[q].deps[i], g.recs[q].verifiedAt)
    requires ok && !changed ==> Passing(w, g', g.recs[q].deps[j], g.recs[q].verifiedAt)
    requires ok && changed ==> Reason(w, g', q)
    ensures CheckedTo(w, g, g', q, keys, j + 1, ok, changed)
  {
    hide Passing; hide Settled; hide Reason; hide Advances;
    KeepsOne(w, g, g', keys, q);
    forall i | 0 <= i < j ensures Passing(w, g', g.recs[q].deps[i], g.recs[q].verifiedAt) {
      PassingStays(w, g, g', keys + {q}, g.recs[q].deps[i], g.recs[q].verifiedAt);
    }
  }

  /** With `q` held, its dependency `j` can be brought up to date. */
  lemma AboutToCheck(cfg: Config, w: World, g: Graph, running: set<Key>, held: map<Key, nat>, q: Key, j: nat)
    requires InRequest(cfg, w, g, running, held, {q}) && q.Query? && q in g.recs && q !in running
    requires !Settled(w, g, q) && !g.recs[q].untracked && j < |g.recs[q].deps|
    requires forall i :: 0 <= i < j ==> Passing(w, g, g.recs[q].deps[i], g.recs[q].verifiedAt)
    requires q in held ==> j <= held[q]
    ensures Inv(cfg, w, g)
    ensures InRequest(cfg, w, g, running, if q in held then held else held[q := j], {g.recs[q].deps[j]})
    ensures q in held ==> held[q] < |g.recs[q].deps|
    ensures q in held && j < held[q] ==> Passing(w, g, g.recs[q].deps[j], g.recs[q].verifiedAt)
    ensures q in held && j == held[q] ==>
      var p := g.recs[q].deps[j]; p.Query? && p in g.recs && (p in held || p in running)
    ensures var d := g.recs[q].deps[j]; !d.Ambient? && (d.Query? ==> g.rank(d.id) < g.rank(q.id))
  {
    hide Inv; hide HeldOk; hide Passing; hide Settled;
    DependencyRank(cfg, w, g, q, g.recs[q].deps[j]);
    Wait(cfg, w, g, running, held, q, j);
  }

  /** Dependency `j` of `q` has been looked at. */
  lemma DependencyChecked(cfg: Config, w: World, depth: nat -> nat, calm: set<Key>, calmDepth: nat -> nat, g: Graph,
      g': Graph, q: Key, d: Key, keys: set<Key>, j: nat, ok: bool, changed: bool, fine: bool)
    requires Inv(cfg, w, g) && Inv(cfg, w, g') && q.Query? && q in g.recs && !Settled(w, g, q)
    requires Advances(w, g, g', keys + {q}) && j < |g.recs[q].deps| && d == g.recs[q].deps[j]
    requires forall i :: 0 <= i < j ==> Passing(w, g, g.recs[q].deps[i], g.recs[q].verifiedAt)
    requires ok && !changed ==> Passing(w, g', d, g.recs[q].verifiedAt)
    requires ok && changed ==> d !in g'.start || d in g'.blind || MovedPast(w, g', d, g.recs[q].verifiedAt)
    requires d.Query? ==> Delivered(cfg, w, depth, calm, calmDepth, g, g', d, keys + {q}, ok, fine)
    requires !d.Query? ==> ok && fine && Beside(cfg, w, g, g', d)
    ensures CheckedWell(cfg, w, depth, calm, calmDepth, g, g', q, keys, j + 1, ok, changed, fine)
  {
    hide Inv; hide Advances; hide Falls; hide InCalm; hide Settled; hide Passing; hide MovedPast; hide Reason;
    hide Goes; hide Beside;
    DependencyGoes(cfg, w, g, g', keys + {q}, depth, calm, calmDepth, q, d, keys, ok, fine);
    KeepsOne(w, g, g', keys, q);
    if ok && changed { MovedReason(cfg, w, g', q, d); }
    CheckedOne(w, g, g', q, keys, j, ok, changed);
  }

  lemma CheckedStands(cfg: Config, w: World, depth: nat -> nat, calm: set<Key>, calmDepth: nat -> nat, g: Graph,
      g': Graph, q: Key, keys: set<Key>, j: nat)
    requires q in g.recs && CheckedWell(cfg, w, depth, calm, calmDepth, g, g', q, keys, j, true, false, true)
    ensures q in g'.recs && g'.recs[q] == g.recs[q] && !Settled(w, g', q) && j <= |g.recs[q].deps|
    ensures forall i :: 0 <= i < j ==> Passing(w, g', g.recs[q].deps[i], g.recs[q].verifiedAt)
  {
    hide Advances; hide Passing; hide Settled; hide Delivered;
  }

  lemma CheckedInside(cfg: Config, w: World, depth: nat -> nat, calm: set<Key>, calmDepth: nat -> nat, g: Graph,
      g': Graph, q: Key, running: set<Key>, held: map<Key, nat>, j: nat, ok: bool, dirty: bool, fine: bool)
    requires InRequest(cfg, w, g, running, held, {q}) && Inv(cfg, w, g') && q in g.recs
    requires CheckedWell(cfg, w, depth, calm, calmDepth, g, g', q, held.Keys + running, j, ok, dirty, fine)
    ensures InRequest(cfg, w, g', running, held, {q})
  {
    hide Advances; hide InRequest; hide Passing; hide Settled; hide Delivered;
    KeepsOne(w, g, g', held.Keys + running, q);
    StillInRequest(cfg, w, g, g', running, held, {q});
  }

  lemma CheckedMore(cfg: Config, w: World, depth: nat -> nat, calm: set<Key>, calmDepth: nat -> nat, g: Graph,
      g': Graph, g'': Graph, q: Key, keys: set<Key>, j: nat, ok: bool, dirty: bool, fine: bool)
    requires q in g.recs && CheckedWell(cfg, w, depth, calm, calmDepth, g, g', q, keys, j, true, false, true)
    requires q in g'.recs && CheckedWell(cfg, w, depth, calm, calmDepth, g', g'', q, keys, j + 1, ok, dirty, fine)
    ensures CheckedWell(cfg, w, depth, calm, calmDepth, g, g'', q, keys, j + 1, ok, dirty, fine)
    ensures j + 1 <= |g.recs[q].deps|
  {
    hide Advances; hide Passing; hide Settled; hide Reason; hide Delivered;
    SameStart(w, g', g'', keys + {q});
    AdvancesTwice(w, g, g', g'', keys + {q});
    DeliveredOn(cfg, w, depth, calm, calmDepth, g, g', g'', q, keys, ok, fine);
  }

  lemma AllChecked(cfg: Config, w: World, depth: nat -> nat, calm: set<Key>, calmDepth: nat -> nat, g: Graph,
      g': Graph, q: Key, keys: set<Key>, j: nat, ok: bool, dirty: bool, fine: bool)
    requires q in g.recs && CheckedWell(cfg, w, depth, calm, calmDepth, g, g', q, keys, j, ok, dirty, fine)
    requires q.Query? && !g.recs[q].untracked
    ensures Advances(w, g, g', keys + {q}) && j <= |g.recs[q].deps|
    ensures ok && !dirty && j == |g.recs[q].deps| ==> Verifiable(w, g', q)
    ensures ok && dirty ==> Reason(w, g', q)
    ensures Delivered(cfg, w, depth, calm, calmDepth, g, g', q, keys, ok, fine)
  {
    hide Advances; hide Passing; hide Settled; hide Reason; hide Delivered;
  }

  /** A query with no record runs: nothing under verification can be waiting for it. */
  lemma ColdStart(cfg: Config, w: World, g: Graph, running: set<Key>, held: map<Key, nat>, q: Key)
    requires InRequest(cfg, w, g, running, held, {}) && q.Query? && q.id in cfg.prog && q !in g.recs && q in g.known
    ensures q !in held && Reason(w, g, q) && InRequest(cfg, w, g, running + {q}, held, {})
  {
    hide Inv; hide Passing; hide StampsOk;
    StartStored(cfg, w, g, q);
  }

  /** A query with a record runs: whatever waited for it now waits for something running. */
  lemma WarmStart(cfg: Config, w: World, g: Graph, running: set<Key>, held: map<Key, nat>, q: Key)
    requires InRequest(cfg, w, g, running, held, {q}) && q.Query? && q.id in cfg.prog
    requires q in g.recs && q !in held && !Settled(w, g, q) && q in g.known
    ensures InRequest(cfg, w, g, running + {q}, held, {})
  {
    hide Inv;
  }

  lemma BlindStays(w: World, g: Graph, g': Graph, keys: set<Key>)
    requires Advances(w, g, g', keys)
    ensures g.blind <= g'.blind
  {}

  lemma KeepsOne(w: World, g: Graph, g': Graph, keys: set<Key>, q: Key)
    requires Advances(w, g, g', keys + {q})
    ensures Advances(w, g, g', keys)
    ensures q in g.recs ==> q in g'.recs && g'.recs[q] == g.recs[q]
    ensures q.Query? ==> (Settled(w, g, q) <==> Settled(w, g', q))
    ensures q in g.known ==> q in g'.known
  {
    assert Same(g, g', q);
  }

  lemma PassingStays(w: World, g: Graph, g': Graph, keys: set<Key>, d: Key, since: nat)
    requires Advances(w, g, g', keys) && Passing(w, g, d, since)
    ensures Passing(w, g', d, since)
  {
    assert Same(g, g', d);
  }

  lemma QuerySettled(w: World, g: Graph, q: Key)
    requires q.Query?
    ensures Settled(w, g, q) <==> q in g.recs && g.recs[q].checkedIn == g.req
  {}

  lemma LearnSettles(w: World, g: Graph, g': Graph, q: Key)
    requires g' == g.(known := g'.known)
    ensures Settled(w, g', q) <==> Settled(w, g, q)
  {}

  /** A query object comes to hand. */
  lemma Learn(cfg: Config, w: World, g: Graph, running: set<Key>, held: map<Key, nat>, cur: set<Key>, q: Key)
    returns (g': Graph)
    requires InRequest(cfg, w, g, running, held, cur)
    ensures g' == g.(known := g.known + {q}) && InRequest(cfg, w, g', running, held, cur)
    ensures Settled(w, g', q) <==> Settled(w, g, q)
    ensures Advances(w, g, g', held.Keys + running)
  {
    hide Inv; hide HeldOk; hide Settled;
    g' := g.(known := g.known + {q});
    InvInRequest(cfg, w, g, running, held, cur);
    LearnKeeps(cfg, w, g, g');
    StillInRequest(cfg, w, g, g', running, held, cur);
    LearnSettles(w, g, g', q);
  }

  /** From `g0` to `g`, a query object comes to hand, and on to `g2`. */
  lemma LearnedOn(cfg: Config, w: World, depth: nat -> nat, g0: Graph, g: Graph, g1: Graph, g2: Graph, q: Key,
      keys: set<Key>, fine: bool)
    requires Advances(w, g0, g, keys) && Advances(w, g, g1, keys) && Advances(w, g1, g2, keys)
    requires g1.recs == g.recs && g1.runs == g.runs
    requires Goes(cfg, w, depth, g0, g, q, keys, true, depth(q.id) + 1)
    requires Goes(cfg, w, depth, g1, g2, q, keys, fine, depth(q.id) + 1)
    ensures Advances(w, g0, g2, keys) && Goes(cfg, w, depth, g0, g2, q, keys, fine, depth(q.id) + 1)
  {
    hide Advances; hide Goes;
    SameStart(w, g, g1, keys);
    SameStart(w, g1, g2, keys);
    AdvancesTwice(w, g0, g, g1, keys);
    AdvancesTwice(w, g0, g1, g2, keys);
    GoesFrom(cfg, w, depth, g, g1, g2, q, keys, fine, depth(q.id) + 1);
    GoesOn(cfg, w, depth, g0, g, g2, q, keys, true, fine, depth(q.id) + 1);
  }

  lemma UntrackedReason(cfg: Config, w: World, g: Graph, q: Key)
    requires Inv(cfg, w, g) && q in g.recs && g.recs[q].untracked && !Settled(w, g, q)
    ensures Reason(w, g, q)
  {
    AtRecord(cfg, w, g, q);
  }

  lemma MovedReason(cfg: Config, w: World, g: Graph, q: Key, d: Key)
    requires Inv(cfg, w, g) && q in g.recs && !Settled(w, g, q) && d in g.recs[q].deps
    requires d !in g.start || d in g.blind || MovedPast(w, g, d, g.recs[q].verifiedAt)
    ensures Reason(w, g, q)
  {
    AtRecord(cfg, w, g, q);
    if q in g.start { assert Moved(g, d, g.start[q].verifiedAt); }
  }

  lemma RefreshAdvances(cfg: Config, w: World, g: Graph, g': Graph, running: set<Key>, held: map<Key, nat>, r: Key)
    requires r.Resource? && Step(w, g, g') && g'.known == g.known && (forall k :: k != r ==> Same(g, g', k))
    requires RunningOk(cfg.prog, w, g, running) && HeldOk(w, g, running, held, {r})
    ensures Advances(w, g, g', held.Keys + running)
    ensures r in g.recs ==> r in g'.recs
  {}

  // ---------------------------------------------------------------------------------------------
  // An execution in progress

  /** The body has read `t` so far: each read is the one it asked for, settled, and answered with
      what the node stands for now. */
  ghost predicate Reading(w: World, g: Graph, b: Body, t: Trace, deps: seq<Key>, untracked: bool) {
    && |t.keys| == |t.answers|
    && (forall i {:trigger t.keys[i]} :: 0 <= i < |t.keys| ==>
          b.step(t.answers[..i]) == Ask(t.keys[i]) && Settled(w, g, t.keys[i]) && Now(w, g, t.keys[i]) == t.answers[i])
    && (forall d :: d in deps <==> d in t.keys && !d.Ambient?)
    && (untracked <==> exists i :: 0 <= i < |t.keys| && t.keys[i].Ambient?)
  }

  lemma ReadingStays(w: World, g: Graph, g': Graph, keys: set<Key>, b: Body, t: Trace, deps: seq<Key>, untracked: bool)
    requires Reading(w, g, b, t, deps, untracked) && Advances(w, g, g', keys)
    ensures Reading(w, g', b, t, deps, untracked)
  {
    forall i | 0 <= i < |t.keys| ensures Settled(w, g', t.keys[i]) && Now(w, g', t.keys[i]) == t.answers[i] {
      SettledStays(w, g, g', t.keys[i]);
    }
  }

  lemma ReadingMore(w: World, g: Graph, b: Body, t: Trace, deps: seq<Key>, untracked: bool, k: Key, a: Answer,
      deps': seq<Key>)
    requires Reading(w, g, b, t, deps, untracked) && b.step(t.answers) == Ask(k) && Settled(w, g, k)
    requires Now(w, g, k) == a
    requires forall d :: d in deps' <==> d in deps || (d == k && !k.Ambient?)
    ensures Reading(w, g, b, Trace(t.keys + [k], t.answers + [a]), deps', untracked || k.Ambient?)
  {
    var t' := Trace(t.keys + [k], t.answers + [a]);
    assert t.answers[..|t.keys|] == t.answers;
    forall i | 0 <= i < |t'.keys|
      ensures b.step(t'.answers[..i]) == Ask(t'.keys[i]) && Settled(w, g, t'.keys[i])
      ensures Now(w, g, t'.keys[i]) == t'.answers[i]
    {
      assert t'.answers[..i] == t.answers[..i];
      if i < |t.keys| { assert t'.keys[i] == t.keys[i]; }
    }
    if untracked {
      var i :| 0 <= i < |t.keys| && t.keys[i].Ambient?;
      assert t'.keys[i].Ambient?;
    }
    if k.Ambient? { assert t'.keys[|t.keys|].Ambient?; }
    forall d ensures d in deps' <==> d in t'.keys && !d.Ambient? {}
  }

  lemma NothingRead(w: World, g: Graph, b: Body)
    ensures Reading(w, g, b, Trace([], []), [], false)
  {}

  lemma KnownProgram(cfg: Config, w: World, g: Graph, running: set<Key>, held: map<Key, nat>, q: Key)
    requires InRequest(cfg, w, g, running, held, {}) && q in running
    ensures q.Query? && q.id in cfg.prog
  {}

  lemma ReadingDone(cfg: Config, w: World, g: Graph, q: Key, t: Trace, rec: Record)
    requires q.Query? && q.id in cfg.prog && !Settled(w, g, q) && q in g.known
    requires Reading(w, g, cfg.prog[q.id], t, rec.deps, rec.untracked)
    requires rec.answer.Val? && cfg.prog[q.id].step(t.answers) == Done(rec.answer.v)
    requires rec == Landed(g, q, rec.answer, rec.deps, rec.untracked) && InLabelOrder(cfg.labelOf, rec.deps)
    ensures Executed(cfg, w, g, q, t, rec.answer, rec)
  {}

  /** One read of a body goes as its calls do. */
  lemma ReadGoes(cfg: Config, w: World, depth: nat -> nat, g: Graph, g': Graph, q: Key, t: Trace, k: Key,
      keys: set<Key>, fine: bool)
    requires HasRead(cfg, w, OpeningOf(g'), q, t) && cfg.prog[q.id].step(t.answers) == Ask(k)
    requires k.Query? ==> Goes(cfg, w, depth, g, g', k, keys, fine, depth(k.id) + 1)
    requires !k.Query? ==> Beside(cfg, w, g, g', k) && (Answers(w, g'.start.Keys, k) ==> fine)
    ensures Goes(cfg, w, depth, g, g', q, keys - {q}, fine, depth(q.id))
  {
    NarrowRead(cfg, w, g, g', q, t, k);
    hide Narrow; hide HasRead;
    if Falls(cfg, w, g', depth, q, keys - {q}) {
      assert CallOk(cfg.prog, depth, w, g'.start.Keys, q.id, k);
    }
  }

  /** How far the body of `q` has got since `g`: what it has read so far, in label order, and that its calls went
      as they should. */
  ghost predicate BodyAt(cfg: Config, w: World, depth: nat -> nat, g: Graph, g': Graph, q: Key, keys: set<Key>,
      t: Trace, deps: seq<Key>, untracked: bool, ok: bool, fine: bool)
  {
    && q.id in cfg.prog && Advances(w, g, g', keys) && InLabelOrder(cfg.labelOf, deps)
    && (ok ==> Reading(w, g', cfg.prog[q.id], t, deps, untracked))
    && Goes(cfg, w, depth, g, g', q, keys - {q}, fine, depth(q.id))
  }

  lemma BodyBegun(cfg: Config, w: World, depth: nat -> nat, g: Graph, q: Key, keys: set<Key>)
    requires q.id in cfg.prog
    ensures BodyAt(cfg, w, depth, g, g, q, keys, Trace([], []), [], false, true, true)
  {
    NothingRead(w, g, cfg.prog[q.id]);
  }

  /** One more read, from `g1` to `g2`. */
  lemma BodyReadsOne(cfg: Config, w: World, depth: nat -> nat, g: Graph, g1: Graph, g2: Graph, q: Key, keys: set<Key>,
      t: Trace, deps: seq<Key>, untracked: bool, k: Key, a: Answer, ok: bool, fine: bool)
    requires BodyAt(cfg, w, depth, g, g1, q, keys, t, deps, untracked, true, true)
    requires q.Query? && HasRead(cfg, w, OpeningOf(g1), q, t)
    requires Advances(w, g1, g2, keys) && cfg.prog[q.id].step(t.answers) == Ask(k)
    requires ok ==> Settled(w, g2, k) && Now(w, g2, k) == a
    requires k.Query? ==> Goes(cfg, w, depth, g1, g2, k, keys, fine, depth(k.id) + 1)
    requires !k.Query? ==> Beside(cfg, w, g1, g2, k) && (Answers(w, g2.start.Keys, k) ==> fine)
    ensures if ok
            then BodyAt(cfg, w, depth, g, g2, q, keys, Trace(t.keys + [k], t.answers + [a]),
                        if k.Ambient? then deps else InsertByLabel(cfg.labelOf, deps, k), untracked || k.Ambient?,
                        ok, fine)
            else BodyAt(cfg, w, depth, g, g2, q, keys, t, deps, untracked, ok, fine)
  {
    hide Advances; hide Reading; hide Goes; hide Settled; hide Beside; hide InLabelOrder; hide InsertByLabel;
    hide HasRead;
    var b := cfg.prog[q.id];
    SameStart(w, g1, g2, keys);
    ReadGoes(cfg, w, depth, g1, g2, q, t, k, keys, fine);
    GoesOn(cfg, w, depth, g, g1, g2, q, keys - {q}, true, fine, depth(q.id));
    AdvancesTwice(w, g, g1, g2, keys);
    if ok {
      ReadingStays(w, g1, g2, keys, b, t, deps, untracked);
      InsertKeepsOrder(cfg.labelOf, deps, k);
      ReadingMore(w, g2, b, t, deps, untracked, k, a,
        if k.Ambient? then deps else InsertByLabel(cfg.labelOf, deps, k));
    }
  }

  lemma BodyStill(cfg: Config, w: World, depth: nat -> nat, g: Graph, g1: Graph, running: set<Key>,
      held: map<Key, nat>, q: Key, t: Trace, deps: seq<Key>, untracked: bool)
    requires InRequest(cfg, w, g, running, held, {}) && Inv(cfg, w, g1)
    requires BodyAt(cfg, w, depth, g, g1, q, held.Keys + running, t, deps, untracked, true, true)
    ensures InRequest(cfg, w, g1, running, held, {})
  {
    StillInRequest(cfg, w, g, g1, running, held, {});
  }

  lemma BodyOver(cfg: Config, w: World, depth: nat -> nat, g: Graph, g': Graph, q: Key, keys: set<Key>, t: Trace,
      deps: seq<Key>, untracked: bool, ok: bool, fine: bool)
    requires BodyAt(cfg, w, depth, g, g', q, keys, t, deps, untracked, ok, fine) && q.Query?
    ensures Advances(w, g, g', keys) && InLabelOrder(cfg.labelOf, deps)
    ensures ok ==> Reading(w, g', cfg.prog[q.id], t, deps, untracked)
    ensures Goes(cfg, w, depth, g, g', q, keys - {q}, fine, depth(q.id))
    ensures cfg.prog[q.id].step(t.answers).Raise? ==> Goes(cfg, w, depth, g, g', q, keys - {q}, false, depth(q.id))
  {
    hide Reading; hide Advances;
    if cfg.prog[q.id].step(t.answers).Raise? { NeverRaises(cfg, w, g', depth, q, t.answers, keys - {q}); }
  }

  lemma SameStart(w: World, g: Graph, g': Graph, keys: set<Key>)
    requires Advances(w, g, g', keys)
    ensures OpeningOf(g') == OpeningOf(g)
  {}

  lemma NeverRaises(cfg: Config, w: World, g: Graph, depth: nat -> nat, q: Key, h: seq<Answer>, keys: set<Key>)
    requires q.Query? && q.id in cfg.prog && cfg.prog[q.id].step(h).Raise?
    ensures !Falls(cfg, w, g, depth, q, keys)
  {}

  lemma WaitingForNone(cfg: Config, w: World, g: Graph, running: set<Key>, held: map<Key, nat>, k: Key)
    requires InRequest(cfg, w, g, running, held, {})
    ensures InRequest(cfg, w, g, running, held, {k})
  {}

  lemma RefreshInRequest(cfg: Config, w: World, g: Graph, g': Graph, running: set<Key>, held: map<Key, nat>, r: Key)
    requires r.Resource? && Step(w, g, g') && g'.known == g.known && (forall k :: k != r ==> Same(g, g', k))
    requires InRequest(cfg, w, g, running, held, {r})
    ensures Advances(w, g, g', held.Keys + running)
  {
    RefreshAdvances(cfg, w, g, g', running, held, r);
  }

  lemma ReasonStays(w: World, g: Graph, g': Graph, keys: set<Key>, q: Key)
    requires Reason(w, g, q) && Advances(w, g, g', keys)
    ensures Reason(w, g', q)
  {
    if q in g.start && !g.start[q].untracked {
      var d :| d in g.start[q].deps && Checked(w, g, d) && Moved(g, d, g.start[q].verifiedAt);
      if Settled(w, g, d) { SettledStays(w, g, g', d); assert Same(g, g', d); }
      assert Moved(g', d, g'.start[q].verifiedAt);
    }
  }

  // ---------------------------------------------------------------------------------------------
  // Why it ends

  ghost function QueriesOf(prog: Prog): set<Key> {
    set i | i in prog :: Query(i)
  }

  /** How many queries are not running yet, and not under verification yet. */
  ghost function Room(prog: Prog, stack: seq<Key>): nat {
    |QueriesOf(prog) - Elements(stack)|
  }

  ghost function Slack(prog: Prog, held: set<Key>): nat {
    |QueriesOf(prog) - held|
  }

  lemma Pushed(stack: seq<Key>, held: set<Key>, q: Key)
    requires q !in stack && q !in held
    ensures Elements(stack + [q]) == Elements(stack) + {q}
    ensures held + Elements(stack + [q]) == held + Elements(stack) + {q}
    ensures held + Elements(stack + [q]) - {q} == held + Elements(stack)
    ensures (stack + [q])[..|stack|] == stack && q !in held + Elements(stack)
  {}

  lemma RoomFalls(prog: Prog, stack: seq<Key>, q: Key)
    requires q.Query? && q.id in prog && q !in stack
    ensures Room(prog, stack + [q]) < Room(prog, stack)
  {
    assert QueriesOf(prog) - Elements(stack + [q]) == QueriesOf(prog) - Elements(stack) - {q};
  }

  lemma SlackFalls(prog: Prog, held: set<Key>, q: Key)
    requires q.Query? && q.id in prog
    ensures Slack(prog, held + {q}) <= Slack(prog, held)
    ensures q !in held ==> Slack(prog, held + {q}) < Slack(prog, held)
    ensures q in held ==> held + {q} == held
  {
    assert QueriesOf(prog) - (held + {q}) == if q in held then QueriesOf(prog) - held else QueriesOf(prog) - held - {q};
  }
}
