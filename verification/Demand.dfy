/** What a query needs: whatever its body asked for, or its record was computed from, and what those need in turn. A
    request for it touches nothing else.
 */
module Demand {
  import opened Options
  import opened Programs
  import opened Graphs
  import opened Steps

  /** What a request found: records and traces, the revision, and what the loaded checkpoint holds. */
  datatype Opening = Opening(start: map<Key, Record>, began: map<Key, Trace>, saved: map<Key, Answer>, first: nat)

  ghost function OpeningOf(g: Graph): Opening {
    Opening(g.start, g.began, g.saved, g.first)
  }

  ghost function LeavesOf(cfg: Config, w: World, o: Opening): Leaves {
    WorldLeaves(cfg, w, InputsOf(o.start))
  }

  /** The body of `q` has read `t`: each node it asked for, and what a fresh database answers for it. */
  ghost predicate HasRead(cfg: Config, w: World, o: Opening, q: Key, t: Trace) {
    && q.Query? && q.id in cfg.prog && |t.keys| == |t.answers|
    && forall i {:trigger t.keys[i]} :: 0 <= i < |t.keys| ==>
         && cfg.prog[q.id].step(t.answers[..i]) == Ask(t.keys[i])
         && Fresh(cfg.prog, LeavesOf(cfg, w, o), t.keys[i], t.answers[i])
  }

  lemma NothingHeard(cfg: Config, w: World, o: Opening, q: Key)
    requires q.Query? && q.id in cfg.prog
    ensures HasRead(cfg, w, o, q, Trace([], []))
  {}

  /** The record of `q` comes from the execution `t`: it was stored when the request began, or it is in the
      checkpoint. */
  ghost predicate Noted(cfg: Config, o: Opening, q: Key, t: Trace) {
    && q.Query? && q.id in cfg.prog && (exists a :: Replays(cfg.prog[q.id], t, a))
    && (if q in o.start then q in o.began && o.began[q] == t
        else q in o.saved && Replays(cfg.prog[q.id], t, o.saved[q]))
  }

  /** How `q` comes to need a node: it is the node; its body, having read `t`, asked for `key`; or `key` is among what
      its record was computed from. */
  datatype Way =
    | Itself
    | ByRead(t: Trace, key: Key, way: Way)
    | ByRecord(t: Trace, key: Key, way: Way)

  ghost predicate NeededBy(cfg: Config, w: World, o: Opening, q: Key, k: Key, way: Way)
    decreases way
  {
    match way
    case Itself => k == q
    case ByRead(t, d, next) =>
      HasRead(cfg, w, o, q, t) && cfg.prog[q.id].step(t.answers) == Ask(d) && NeededBy(cfg, w, o, d, k, next)
    case ByRecord(t, d, next) => Noted(cfg, o, q, t) && d in t.keys && NeededBy(cfg, w, o, d, k, next)
  }

  ghost predicate Needs(cfg: Config, w: World, o: Opening, q: Key, k: Key) {
    exists way :: NeededBy(cfg, w, o, q, k, way)
  }

  /** From `g` to `g'` a record of `k` was made or changed, or its body was run. */
  ghost predicate Touched(g: Graph, g': Graph, k: Key) {
    (k in g'.recs && (k !in g.recs || g'.recs[k] != g.recs[k])) || g'.runs[k] > g.runs[k]
  }

  /** Nothing was touched on the way from `g` to `g'` but what `q` needs. */
  ghost predicate Narrow(cfg: Config, w: World, g: Graph, g': Graph, q: Key) {
    forall k :: Touched(g, g', k) ==> Needs(cfg, w, OpeningOf(g'), q, k)
  }

  /** Of what the request found, nothing else was touched: each record made or changed since, and each body run, is of a
      node that `q` needs. */
  ghost predicate OnlyNeeded(cfg: Config, w: World, g: Graph, q: Key) {
    forall k :: (k in g.recs && (k !in g.start || g.recs[k] != g.start[k])) || g.runs[k] > 0 ==>
      Needs(cfg, w, OpeningOf(g), q, k)
  }

  lemma NarrowSinceBegun(cfg: Config, w: World, g0: Graph, g: Graph, q: Key)
    requires Narrow(cfg, w, g0, g, q) && g0.recs == g.start && g0.runs == multiset{}
    ensures OnlyNeeded(cfg, w, g, q)
  {
    forall k | (k in g.recs && (k !in g.start || g.recs[k] != g.start[k])) || g.runs[k] > 0
      ensures Needs(cfg, w, OpeningOf(g), q, k)
    {
      assert Touched(g0, g, k);
    }
  }

  lemma NeedsItself(cfg: Config, w: World, o: Opening, q: Key)
    ensures Needs(cfg, w, o, q, q)
  {
    assert NeededBy(cfg, w, o, q, q, Itself);
  }

  lemma NarrowTwice(cfg: Config, w: World, g: Graph, g': Graph, g'': Graph, q: Key)
    requires Narrow(cfg, w, g, g', q) && Narrow(cfg, w, g', g'', q) && OpeningOf(g'') == OpeningOf(g')
    ensures Narrow(cfg, w, g, g'', q)
  {
    forall k | Touched(g, g'', k) ensures Needs(cfg, w, OpeningOf(g''), q, k) {
      assert Touched(g, g', k) || Touched(g', g'', k);
    }
  }

  /** Taking records back touches nothing. */
  lemma NarrowLess(cfg: Config, w: World, g: Graph, g': Graph, g'': Graph, q: Key)
    requires Narrow(cfg, w, g, g', q) && OpeningOf(g'') == OpeningOf(g') && g''.runs == g'.runs
    requires forall k :: k in g''.recs ==> k in g'.recs && g''.recs[k] == g'.recs[k]
    ensures Narrow(cfg, w, g, g'', q)
  {
    forall k | Touched(g, g'', k) ensures Needs(cfg, w, OpeningOf(g''), q, k) { assert Touched(g, g', k); }
  }

  /** Only the record of `q` itself was touched. */
  lemma NarrowAt(cfg: Config, w: World, g: Graph, g': Graph, q: Key)
    requires forall k :: k != q ==> Same(g, g', k) && g'.runs[k] <= g.runs[k]
    ensures Narrow(cfg, w, g, g', q)
  {
    NeedsItself(cfg, w, OpeningOf(g'), q);
    forall k | Touched(g, g', k) ensures k == q { assert k != q ==> Same(g, g', k); }
  }

  /** What is needed by something the body of `q` asked for, `q` needs. */
  lemma NarrowRead(cfg: Config, w: World, g: Graph, g': Graph, q: Key, t: Trace, d: Key)
    requires HasRead(cfg, w, OpeningOf(g'), q, t) && cfg.prog[q.id].step(t.answers) == Ask(d)
    requires Narrow(cfg, w, g, g', d)
    ensures Narrow(cfg, w, g, g', q)
  {
    var o := OpeningOf(g');
    forall k | Touched(g, g', k) ensures Needs(cfg, w, o, q, k) {
      var way :| NeededBy(cfg, w, o, d, k, way);
      assert NeededBy(cfg, w, o, q, k, ByRead(t, d, way));
    }
  }

  /** What is needed by something the record of `q` was computed from, `q` needs. */
  lemma NarrowRecord(cfg: Config, w: World, g: Graph, g': Graph, q: Key, t: Trace, d: Key)
    requires Noted(cfg, OpeningOf(g'), q, t) && d in t.keys && Narrow(cfg, w, g, g', d)
    ensures Narrow(cfg, w, g, g', q)
  {
    var o := OpeningOf(g');
    forall k | Touched(g, g', k) ensures Needs(cfg, w, o, q, k) {
      var way :| NeededBy(cfg, w, o, d, k, way);
      assert NeededBy(cfg, w, o, q, k, ByRecord(t, d, way));
    }
  }

  /** A record not brought up to date in the request is one it found, or one of the checkpoint. */
  lemma UnsettledNoted(cfg: Config, w: World, g: Graph, q: Key)
    requires Inv(cfg, w, g) && q.Query? && q in g.recs && !Settled(w, g, q)
    ensures TraceOk(cfg, g, q) && Noted(cfg, OpeningOf(g), q, g.traces[q])
    ensures forall d :: d in g.recs[q].deps ==> d in g.traces[q].keys
  {
    InvAt(cfg, w, g, q);
    assert RunOk(w, g, q);
  }
}
