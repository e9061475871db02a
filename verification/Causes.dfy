/** Why a query raises, and when it cannot.

    A raise has a cause that can be followed from call to call, down to a body that raises on what it read, a
    leaf that cannot be read, an unknown query, or one that is being executed. Where a fresh database answers a
    query and stored edges go no deeper than its evaluation, there is no such cause.
 */
module Causes {
  import opened Options
  import opened Programs
  import opened Graphs
  import opened Steps
  import opened Demand
  import opened Nesting

  /** `InDependency`: bringing a recorded dependency up to date raises. `t` is the recorded execution there, and
      elsewhere what the body has read. */
  datatype Cause =
    | Again
    | NoSuchQuery
    | Unreadable
    | InBody(t: Trace)
    | InRead(t: Trace, key: Key, cause: Cause)
    | InDependency(t: Trace, key: Key, cause: Cause)

  /** Bringing `k` up to date raises while `running` are executed. */
  ghost predicate Raises(cfg: Config, w: World, o: Opening, running: set<Key>, k: Key, c: Cause)
    decreases c
  {
    match c
    case Again => k.Query? && k in running
    case NoSuchQuery => k.Query? && k.id !in cfg.prog
    case Unreadable => !Answers(w, o.start.Keys, k)
    case InBody(t) => HasRead(cfg, w, o, k, t) && cfg.prog[k.id].step(t.answers).Raise?
    case InRead(t, d, why) =>
      HasRead(cfg, w, o, k, t) && cfg.prog[k.id].step(t.answers) == Ask(d) && Raises(cfg, w, o, running + {k}, d, why)
    case InDependency(t, d, why) =>
      HasRecorded(cfg, w, o, k, t) && d in t.keys && d.Query? && Raises(cfg, w, o, running, d, why)
  }

  /** Something raises. */
  ghost predicate Faulted(cfg: Config, w: World, o: Opening, running: set<Key>, k: Key) {
    exists c :: Raises(cfg, w, o, running, k, c)
  }

  /** The record of `q` is tracked and comes from the execution `t`. Where nothing had moved, what it read is what a
      fresh database answers. */
  ghost predicate HasRecorded(cfg: Config, w: World, o: Opening, q: Key, t: Trace) {
    && Noted(cfg, o, q, t) && (q in o.start ==> !o.start[q].untracked)
    && (NothingMoved(cfg, w, o) ==>
          forall i :: 0 <= i < |t.keys| && i < |t.answers| ==>
            Fresh(cfg.prog, LeavesOf(cfg, w, o), t.keys[i], t.answers[i]))
  }

  ghost predicate NothingMoved(cfg: Config, w: World, o: Opening) {
    Steady(cfg, w, InputsOf(o.start), o.first, o.start)
  }

  // ---------------------------------------------------------------------------------------------
  // Finding the cause

  lemma HeardMore(cfg: Config, w: World, g: Graph, q: Key, t: Trace, k: Key, a: Answer)
    requires Inv(cfg, w, g) && HasRead(cfg, w, OpeningOf(g), q, t) && cfg.prog[q.id].step(t.answers) == Ask(k)
    requires Settled(w, g, k) && Now(w, g, k) == a
    ensures HasRead(cfg, w, OpeningOf(g), q, Trace(t.keys + [k], t.answers + [a]))
  {
    var o, t' := OpeningOf(g), Trace(t.keys + [k], t.answers + [a]);
    NowFresh(cfg, w, g, k);
    hide Inv; hide Fresh; hide WorldLeaves; hide Settled;
    assert t.answers[..|t.keys|] == t.answers;
    forall i | 0 <= i < |t'.keys|
      ensures cfg.prog[q.id].step(t'.answers[..i]) == Ask(t'.keys[i])
      ensures Fresh(cfg.prog, LeavesOf(cfg, w, o), t'.keys[i], t'.answers[i])
    {
      assert t'.answers[..i] == t.answers[..i];
      if i < |t.keys| { assert t'.keys[i] == t.keys[i]; }
    }
  }

  lemma NowFresh(cfg: Config, w: World, g: Graph, k: Key)
    requires Inv(cfg, w, g) && Settled(w, g, k)
    ensures Fresh(cfg.prog, LeavesOf(cfg, w, OpeningOf(g)), k, Now(w, g, k))
  {
    InputsKept(cfg, w, g);
    if k.Ambient? {
      LeafNow(cfg, w, g, k);
      LeafFresh(cfg.prog, LeavesOf(cfg, w, OpeningOf(g)), k, Now(w, g, k));
    } else {
      SettledFreshInWorld(cfg, w, g, k);
    }
  }

  lemma FaultHere(cfg: Config, w: World, o: Opening, running: set<Key>, k: Key)
    requires (k.Query? && (k in running || k.id !in cfg.prog)) || !Answers(w, o.start.Keys, k)
    ensures Faulted(cfg, w, o, running, k)
  {
    if !Answers(w, o.start.Keys, k) {
      assert Raises(cfg, w, o, running, k, Unreadable);
    } else if k in running {
      assert Raises(cfg, w, o, running, k, Again);
    } else {
      assert Raises(cfg, w, o, running, k, NoSuchQuery);
    }
  }

  /** The body of `q`, which is running, raised on what it read, or asked for something that raised. */
  ghost predicate BodyFaulted(cfg: Config, w: World, o: Opening, running: set<Key>, q: Key, t: Trace) {
    && HasRead(cfg, w, o, q, t)
    && var move := cfg.prog[q.id].step(t.answers); move.Raise? || (move.Ask? && Faulted(cfg, w, o, running, move.key))
  }

  lemma BodyFails(cfg: Config, w: World, o: Opening, running: set<Key>, q: Key, t: Trace)
    requires HasRead(cfg, w, o, q, t)
    ensures cfg.prog[q.id].step(t.answers).Raise? ==> BodyFaulted(cfg, w, o, running, q, t)
    ensures var move := cfg.prog[q.id].step(t.answers);
            move.Ask? && Faulted(cfg, w, o, running, move.key) ==> BodyFaulted(cfg, w, o, running, q, t)
  {}

  lemma FaultOfBody(cfg: Config, w: World, o: Opening, running: set<Key>, q: Key, t: Trace)
    requires BodyFaulted(cfg, w, o, running + {q}, q, t)
    ensures Faulted(cfg, w, o, running, q)
  {
    var move := cfg.prog[q.id].step(t.answers);
    if move.Raise? {
      assert Raises(cfg, w, o, running, q, InBody(t));
    } else {
      var c :| Raises(cfg, w, o, running + {q}, move.key, c);
      assert Raises(cfg, w, o, running, q, InRead(t, move.key, c));
    }
  }

  /** A query whose dependency raises when it is verified raises: `g` is the state before. */
  lemma FaultOfDependency(cfg: Config, w: World, g: Graph, running: set<Key>, q: Key, d: Key)
    requires Inv(cfg, w, g) && q.Query? && q in g.recs && !Settled(w, g, q) && !g.recs[q].untracked
    requires d in g.recs[q].deps && d.Query? && Faulted(cfg, w, OpeningOf(g), running, d)
    ensures Faulted(cfg, w, OpeningOf(g), running, q)
  {
    var t := g.traces[q];
    UnsettledNoted(cfg, w, g, q);
    InvAt(cfg, w, g, q);
    if NothingMoved(cfg, w, OpeningOf(g)) { SteadyReads(cfg, w, g, q); }
    hide Inv;
    assert HasRecorded(cfg, w, OpeningOf(g), q, t);
    var c :| Raises(cfg, w, OpeningOf(g), running, d, c);
    assert Raises(cfg, w, OpeningOf(g), running, q, InDependency(t, d, c));
  }

  /** Where nothing had moved, every record was computed from what a fresh database answers. */
  lemma SteadyReads(cfg: Config, w: World, g: Graph, q: Key)
    requires Inv(cfg, w, g) && SteadyStart(cfg, w, g) && q in g.recs && q.Query? && !g.recs[q].untracked
    ensures TraceOk(cfg, g, q)
    ensures forall i :: 0 <= i < |g.traces[q].keys| ==>
      Fresh(cfg.prog, WorldLeaves(cfg, w, InputsOf(g.start)), g.traces[q].keys[i], g.traces[q].answers[i])
  {
    InvAt(cfg, w, g, q);
    forall i | 0 <= i < |g.traces[q].keys|
      ensures Fresh(cfg.prog, WorldLeaves(cfg, w, InputsOf(g.start)), g.traces[q].keys[i], g.traces[q].answers[i])
    {
      SteadyRead(cfg, w, g, q, i);
    }
  }

  lemma SteadyRead(cfg: Config, w: World, g: Graph, q: Key, i: nat)
    requires Inv(cfg, w, g) && SteadyStart(cfg, w, g) && q in g.recs && q.Query? && !g.recs[q].untracked
    requires TraceOk(cfg, g, q) && i < |g.traces[q].keys|
    ensures Fresh(cfg.prog, WorldLeaves(cfg, w, InputsOf(g.start)), g.traces[q].keys[i], g.traces[q].answers[i])
  {
    var d, a := g.traces[q].keys[i], g.traces[q].answers[i];
    EdgeAt(cfg, w, g, q, i);
    CurrentAt(cfg, w, g, q, i);
    SteadyNow(cfg, w, g, q);
    assert d in g.recs[q].deps;
    if d in g.recs {
      InvAt(cfg, w, g, d);
      SteadyFresh(cfg, w, g, d);
    } else {
      StartStored(cfg, w, g, d);
      SteadyLeaves(cfg, w, g);
      FreshExtends(cfg.prog, RecordLeaves(g.recs), WorldLeaves(cfg, w, InputsOf(g.start)), d, a);
    }
  }

  /** Where nothing had moved, the recorded leaves are those of the world. */
  lemma SteadyLeaves(cfg: Config, w: World, g: Graph)
    requires Inv(cfg, w, g) && SteadyStart(cfg, w, g)
    ensures Extends(RecordLeaves(g.recs), WorldLeaves(cfg, w, InputsOf(g.start)))
  {
    var l, l' := RecordLeaves(g.recs), WorldLeaves(cfg, w, InputsOf(g.start));
    forall k | l(k).Some? ensures l'(k) == l(k) {
      SteadyNow(cfg, w, g, k);
      InvAt(cfg, w, g, k);
      InputsKept(cfg, w, g);
      match k
      case Input(_) => assert k in InputsOf(g.recs);
      case Resource(i) => assert WorldAnswer(cfg, w, k) == g.recs[k].answer;
    }
  }

  // ---------------------------------------------------------------------------------------------
  // Where there is none

  /** The leaves that can be read: the others raise. */
  ghost function Readable(cfg: Config, w: World, o: Opening): Leaves {
    (k: Key) => if Answers(w, o.start.Keys, k) then LeavesOf(cfg, w, o)(k) else None
  }

  /** A fresh database in which what cannot be read raises answers `k`. */
  ghost predicate Evaluable(cfg: Config, w: World, o: Opening, k: Key) {
    exists n: nat :: Eval(cfg.prog, Readable(cfg, w, o), n, k).Some?
  }

  ghost function DepthOf(cfg: Config, w: World, o: Opening, k: Key): nat {
    MinDepth(cfg.prog, Readable(cfg, w, o), k)
  }

  /** Nothing has moved; or no checkpoint is loaded, and each query a stored record of an evaluable query was computed
      from is evaluable too, and at a lesser depth. */
  ghost predicate InDepth(cfg: Config, w: World, o: Opening) {
    NothingMoved(cfg, w, o) || (o.saved == map[] && forall q :: q in o.start && q in o.began ==> FallsAt(cfg, w, o, q))
  }

  ghost predicate FallsAt(cfg: Config, w: World, o: Opening, q: Key)
    requires q in o.began
  {
    Evaluable(cfg, w, o, q) ==> forall d :: d in o.began[q].keys && d.Query? ==>
      Evaluable(cfg, w, o, d) && DepthOf(cfg, w, o, d) < DepthOf(cfg, w, o, q)
  }

  /** All that is running lies deeper than `k`. */
  ghost predicate Inner(cfg: Config, w: World, o: Opening, running: set<Key>, k: Key) {
    k.Query? ==> forall s :: s in running ==> DepthOf(cfg, w, o, s) > DepthOf(cfg, w, o, k)
  }

  lemma ReadableExtends(cfg: Config, w: World, o: Opening)
    ensures Extends(Readable(cfg, w, o), LeavesOf(cfg, w, o))
  {}

  /** Evaluation over fewer leaves goes through whatever a body reads, as far as this is fresh. */
  lemma {:induction false} EvalGoesThrough(prog: Prog, l: Leaves, l': Leaves, n: nat, b: Body, t: Trace, i: nat)
    requires Extends(l, l') && RunBody(prog, l, n, b, []).Some? && |t.keys| == |t.answers| && i <= |t.keys|
    requires forall j {:trigger t.keys[j]} :: 0 <= j < |t.keys| ==>
      b.step(t.answers[..j]) == Ask(t.keys[j]) && Fresh(prog, l', t.keys[j], t.answers[j])
    ensures RunBody(prog, l, n, b, t.answers[..i]).Some?
    ensures i < |t.keys| ==> Eval(prog, l, n, t.keys[i]).Some?
  {
    if i == 0 {
      assert t.answers[..0] == [];
    } else {
      EvalGoesThrough(prog, l, l', n, b, t, i - 1);
      assert b.step(t.answers[..i - 1]) == Ask(t.keys[i - 1]);
      var x := Eval(prog, l, n, t.keys[i - 1]).value;
      assert Fresh(prog, l, t.keys[i - 1], x);
      FreshUnique(prog, l, l', t.keys[i - 1], x, t.answers[i - 1]);
      assert t.answers[..i] == t.answers[..i - 1] + [x];
    }
    if i < |t.keys| { assert b.step(t.answers[..i]) == Ask(t.keys[i]); }
  }

  /** What an evaluable query has read, it reads at a lesser depth; and it goes on. */
  lemma ReadsInside(cfg: Config, w: World, o: Opening, q: Key, t: Trace)
    requires HasRead(cfg, w, o, q, t) && Evaluable(cfg, w, o, q)
    ensures forall i :: 0 <= i < |t.keys| ==>
      Evaluable(cfg, w, o, t.keys[i]) && (t.keys[i].Query? ==> DepthOf(cfg, w, o, t.keys[i]) < DepthOf(cfg, w, o, q))
    ensures var move := cfg.prog[q.id].step(t.answers);
            && !move.Raise?
            && (move.Ask? ==>
                  && Evaluable(cfg, w, o, move.key)
                  && (move.key.Query? ==> DepthOf(cfg, w, o, move.key) < DepthOf(cfg, w, o, q)))
  {
    var l := Readable(cfg, w, o);
    var n: nat :| Eval(cfg.prog, l, n, q).Some?;
    MinDepthAt(cfg.prog, l, q, n);
    ReadableExtends(cfg, w, o);
    var m := DepthOf(cfg, w, o, q);
    var b := cfg.prog[q.id];
    hide Readable; hide LeavesOf; hide Fresh; hide MinDepth;
    forall i | 0 <= i < |t.keys|
      ensures Evaluable(cfg, w, o, t.keys[i]) && DepthOf(cfg, w, o, t.keys[i]) < m
    {
      EvalGoesThrough(cfg.prog, l, LeavesOf(cfg, w, o), m - 1, b, t, i);
      MinDepthAt(cfg.prog, l, t.keys[i], m - 1);
    }
    EvalGoesThrough(cfg.prog, l, LeavesOf(cfg, w, o), m - 1, b, t, |t.keys|);
    assert t.answers[..|t.keys|] == t.answers;
    var move := b.step(t.answers);
    if move.Ask? {
      assert Eval(cfg.prog, l, m - 1, move.key).Some?;
      MinDepthAt(cfg.prog, l, move.key, m - 1);
    }
  }

  /** What can be evaluated, over edges that go no deeper, does not raise. */
  lemma {:induction false} NoCause(cfg: Config, w: World, o: Opening, running: set<Key>, k: Key, c: Cause)
    requires InDepth(cfg, w, o) && Evaluable(cfg, w, o, k) && Inner(cfg, w, o, running, k)
    ensures !Raises(cfg, w, o, running, k, c)
    decreases c
  {
    if Raises(cfg, w, o, running, k, c) {
      match c
      case Again =>
      case NoSuchQuery =>
      case Unreadable =>
      case InBody(t) => ReadsInside(cfg, w, o, k, t);
      case InRead(t, d, why) =>
        ReadsInside(cfg, w, o, k, t);
        NoCause(cfg, w, o, running + {k}, d, why);
      case InDependency(t, d, why) =>
        RecordedInside(cfg, w, o, k, t, d);
        NoCause(cfg, w, o, running, d, why);
    }
  }

  /** The recorded dependencies of an evaluable query are evaluable at a lesser depth. */
  lemma RecordedInside(cfg: Config, w: World, o: Opening, q: Key, t: Trace, d: Key)
    requires InDepth(cfg, w, o) && HasRecorded(cfg, w, o, q, t) && Evaluable(cfg, w, o, q) && d in t.keys && d.Query?
    ensures Evaluable(cfg, w, o, d) && DepthOf(cfg, w, o, d) < DepthOf(cfg, w, o, q)
  {
    hide Evaluable; hide DepthOf;
    if NothingMoved(cfg, w, o) {
      assert HasRead(cfg, w, o, q, t);
      ReadsInside(cfg, w, o, q, t);
    } else {
      assert FallsAt(cfg, w, o, q);
    }
  }

  lemma NotFaulted(cfg: Config, w: World, o: Opening, k: Key)
    requires InDepth(cfg, w, o) && Evaluable(cfg, w, o, k)
    ensures !Faulted(cfg, w, o, {}, k)
  {
    forall c ensures !Raises(cfg, w, o, {}, k, c) { NoCause(cfg, w, o, {}, k, c); }
  }
}
