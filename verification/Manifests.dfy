/** Accepting a checkpoint manifest: its dependency graph must be acyclic, and what leads to an invalid
    record is dropped with it. */
module Manifests {
  import opened Programs
  import opened Sequences

  /** The dependencies a manifest lists, record by record. */
  type Links = map<Key, set<Key>>

  predicate DependsOn(deps: Links, k: Key, d: Key) {
    k in deps && d in deps[k]
  }

  /** Every dependency listed is a record of the manifest. */
  ghost predicate Complete(deps: Links) {
    forall k, d :: DependsOn(deps, k, d) ==> d in deps
  }

  ghost predicate Chain(deps: Links, p: seq<Key>) {
    p != [] && forall i :: 0 <= i < |p| - 1 ==> DependsOn(deps, p[i], p[i + 1])
  }

  ghost predicate Cyclic(deps: Links) {
    exists p :: |p| >= 2 && Chain(deps, p) && p[0] == p[|p| - 1]
  }

  lemma ChainTail(deps: Links, p: seq<Key>, i: nat)
    requires Chain(deps, p) && i < |p|
    ensures Chain(deps, p[i..])
  {
    forall k | 0 <= k < |p[i..]| - 1 ensures DependsOn(deps, p[i..][k], p[i..][k + 1]) {
      assert DependsOn(deps, p[i + k], p[i + k + 1]);
    }
  }

  lemma ChainLonger(deps: Links, p: seq<Key>, d: Key)
    requires Chain(deps, p) && DependsOn(deps, p[|p| - 1], d)
    ensures Chain(deps, p + [d])
  {
    var q := p + [d];
    forall k | 0 <= k < |q| - 1 ensures DependsOn(deps, q[k], q[k + 1]) {
      if k < |p| - 1 { assert DependsOn(deps, p[k], p[k + 1]); }
    }
  }

  ghost predicate LeadsInto(deps: Links, k: Key, keys: set<Key>) {
    exists d :: d in keys && DependsOn(deps, k, d)
  }

  lemma NextIn(deps: Links, k: Key, keys: set<Key>) returns (d: Key)
    requires LeadsInto(deps, k, keys)
    ensures d in keys && DependsOn(deps, k, d)
  {
    d :| d in keys && DependsOn(deps, k, d);
  }

  /** Where every record leads to another of them, following dependencies closes a cycle. */
  lemma {:induction false} FindCycle(deps: Links, stuck: set<Key>, p: seq<Key>)
    requires (forall k :: k in stuck ==> LeadsInto(deps, k, stuck)) && Chain(deps, p) && Elements(p) <= stuck
    ensures Cyclic(deps)
    decreases stuck - Elements(p)
  {
    hide LeadsInto;
    assert p[|p| - 1] in Elements(p);
    var d := NextIn(deps, p[|p| - 1], stuck);
    var q := p + [d];
    ChainLonger(deps, p, d);
    assert Elements(q) == Elements(p) + {d};
    if d in p {
      var i :| 0 <= i < |p| && p[i] == d;
      ChainTail(deps, q, i);
      assert q[i..][0] == d && q[i..][|q[i..]| - 1] == d;
    } else {
      assert d in stuck - Elements(p);
      FindCycle(deps, stuck, q);
    }
  }

  /** `order` numbers records after everything they depend on. */
  ghost predicate Ordered(deps: Links, order: map<Key, nat>) {
    forall k, d {:trigger DependsOn(deps, k, d)} :: k in order && DependsOn(deps, k, d) ==>
      d in order && order[d] < order[k]
  }

  lemma {:induction false} ChainGoesBack(deps: Links, order: map<Key, nat>, p: seq<Key>)
    requires Chain(deps, p) && |p| >= 2 && Ordered(deps, order) && p[0] in order
    ensures p[|p| - 1] in order && order[p[|p| - 1]] < order[p[0]]
  {
    assert DependsOn(deps, p[0], p[1]);
    if |p| > 2 {
      ChainTail(deps, p, 1);
      ChainGoesBack(deps, order, p[1..]);
    }
  }

  /** `remaining` is what is left of the dependencies of each record once `seen` are visited; a ready
      record has nothing left, nor has a visited one. */
  ghost predicate ListOk(deps: Links, remaining: Links, ready: set<Key>, seen: set<Key>) {
    && remaining.Keys == deps.Keys && seen <= deps.Keys && ready <= deps.Keys
    && forall k :: k in deps ==> RecordOk(deps[k], remaining[k], seen, k in ready, k in seen)
  }

  ghost predicate RecordOk(all: set<Key>, left: set<Key>, seen: set<Key>, ready: bool, visited: bool) {
    left == all - seen && (ready || visited <==> left == {}) && !(ready && visited)
  }

  function AfterVisit(deps: Links, remaining: Links, next: Key): Links
    requires remaining.Keys == deps.Keys
  {
    map k | k in deps :: if next in deps[k] then remaining[k] - {next} else remaining[k]
  }

  lemma VisitRecord(all: set<Key>, left: set<Key>, seen: set<Key>, ready: bool, visited: bool, next: Key, isNext: bool)
    requires RecordOk(all, left, seen, ready, visited) && next !in seen && (isNext ==> ready)
    ensures var left' := if next in all then left - {next} else left;
            RecordOk(all, left', seen + {next}, (ready && !isNext) || (next in all && left' == {}), visited || isNext)
  {
    if next in all { assert next in left; }
  }

  lemma VisitOne(deps: Links, remaining: Links, ready: set<Key>, seen: set<Key>, next: Key, ready': set<Key>)
    requires ListOk(deps, remaining, ready, seen) && next in ready
    requires ready' == ready - {next} +
                       set k | k in deps && next in deps[k] && AfterVisit(deps, remaining, next)[k] == {}
    ensures ListOk(deps, AfterVisit(deps, remaining, next), ready', seen + {next}) && next in deps && next !in seen
  {
    hide RecordOk;
    ReadyIsNew(deps, remaining, ready, seen, next);
    forall k | k in deps
      ensures RecordOk(deps[k], AfterVisit(deps, remaining, next)[k], seen + {next}, k in ready', k in seen + {next})
    {
      VisitRecord(deps[k], remaining[k], seen, k in ready, k in seen, next, k == next);
    }
  }

  lemma ReadyIsNew(deps: Links, remaining: Links, ready: set<Key>, seen: set<Key>, k: Key)
    requires ListOk(deps, remaining, ready, seen) && (k in ready || k in seen)
    ensures k in deps && deps[k] <= seen && (k in ready ==> k !in seen)
  {
    assert RecordOk(deps[k], remaining[k], seen, k in ready, k in seen);
    forall d | d in deps[k] ensures d in seen { assert d !in remaining[k]; }
  }

  /** Visits each record once all it depends on has been visited, and accepts if that visits them all:
      exactly if no dependency chain closes. */
  method CheckAcyclic(deps: Links) returns (ok: bool, ghost order: map<Key, nat>)
    requires Complete(deps)
    ensures ok <==> !Cyclic(deps)
    ensures ok ==> Ordered(deps, order) && order.Keys == deps.Keys
  {
    hide Complete; hide Cyclic; hide ListOk; hide DependsOn; hide Ordered;
    var remaining := deps;
    var ready := set k | k in deps && deps[k] == {};
    var visited := 0;
    order := map[];
    ghost var seen: set<Key> := {};
    NothingVisited(deps, ready);
    while ready != {}
      invariant remaining.Keys == deps.Keys && ListOk(deps, remaining, ready, seen) && seen <= deps.Keys
      invariant visited == |seen| && OrderOf(deps, order, seen)
      decreases deps.Keys - seen
    {
      var next :| next in ready;
      var left := AfterVisit(deps, remaining, next);
      var ready' := ready - {next} + set k | k in deps && next in deps[k] && left[k] == {};
      VisitOne(deps, remaining, ready, seen, next, ready');
      ReadyIsNew(deps, remaining, ready, seen, next);
      OrderOne(deps, order, seen, next);
      order, seen := order[next := |seen|], seen + {next};
      visited, remaining, ready := visited + 1, left, ready';
    }
    AcyclicIffAll(deps, remaining, order, seen);
    ok := visited == |deps|;
  }

  lemma NothingVisited(deps: Links, ready: set<Key>)
    requires ready == set k | k in deps && deps[k] == {}
    ensures ListOk(deps, deps, ready, {}) && OrderOf(deps, map[], {})
  {}

  ghost predicate OrderOf(deps: Links, order: map<Key, nat>, seen: set<Key>) {
    Ordered(deps, order) && order.Keys == seen && forall k :: k in order ==> order[k] < |seen|
  }

  lemma OrderOne(deps: Links, order: map<Key, nat>, seen: set<Key>, next: Key)
    requires OrderOf(deps, order, seen) && next in deps && next !in seen && deps[next] <= seen
    ensures OrderOf(deps, order[next := |seen|], seen + {next})
  {}

  lemma AcyclicIffAll(deps: Links, remaining: Links, order: map<Key, nat>, seen: set<Key>)
    requires Complete(deps) && ListOk(deps, remaining, {}, seen) && OrderOf(deps, order, seen) && seen <= deps.Keys
    ensures |seen| == |deps| <==> !Cyclic(deps)
    ensures |seen| == |deps| ==> Ordered(deps, order) && order.Keys == deps.Keys
  {
    hide Complete; hide Cyclic; hide LeadsInto; hide Chain; hide ListOk; hide Ordered;
    var stuck := deps.Keys - seen;
    assert deps.Keys == seen + stuck && |deps.Keys| == |deps|;
    if stuck == {} {
      AllOrdered(deps, order);
    } else {
      forall k | k in stuck ensures LeadsInto(deps, k, stuck) { StillMissing(deps, remaining, seen, k, stuck); }
      var k :| k in stuck;
      OneLink(deps, k);
      FindCycle(deps, stuck, [k]);
    }
  }

  lemma OneLink(deps: Links, k: Key)
    ensures Chain(deps, [k]) && Elements([k]) == {k}
  {}

  lemma AllOrdered(deps: Links, order: map<Key, nat>)
    requires Ordered(deps, order) && order.Keys == deps.Keys
    ensures !Cyclic(deps)
  {
    forall p | |p| >= 2 && Chain(deps, p) ensures p[0] != p[|p| - 1] {
      assert DependsOn(deps, p[0], p[1]);
      ChainGoesBack(deps, order, p);
    }
  }

  lemma StillMissing(deps: Links, remaining: Links, seen: set<Key>, k: Key, stuck: set<Key>)
    requires Complete(deps) && ListOk(deps, remaining, {}, seen) && stuck == deps.Keys - seen && k in stuck
    ensures LeadsInto(deps, k, stuck)
  {
    assert RecordOk(deps[k], remaining[k], seen, k in {}, k in seen);
    var d :| d in remaining[k];
    assert DependsOn(deps, k, d);
  }

  ghost predicate LeadsTo(deps: Links, k: Key, bad: set<Key>) {
    exists p :: Chain(deps, p) && p[0] == k && p[|p| - 1] in bad
  }

  lemma LeadsOneFurther(deps: Links, k: Key, d: Key, bad: set<Key>)
    requires DependsOn(deps, k, d) && LeadsTo(deps, d, bad)
    ensures LeadsTo(deps, k, bad)
  {
    var p :| Chain(deps, p) && p[0] == d && p[|p| - 1] in bad;
    var q := [k] + p;
    forall i | 0 <= i < |q| - 1 ensures DependsOn(deps, q[i], q[i + 1]) {
      if i > 0 { assert DependsOn(deps, p[i - 1], p[i]); }
    }
    assert Chain(deps, q) && q[0] == k && q[|q| - 1] in bad;
  }

  /** Drops the records that lead to one found invalid, and only those. What is accepted is closed
      under dependencies. */
  method Invalidate(deps: Links, bad: set<Key>) returns (invalid: set<Key>)
    requires bad <= deps.Keys && Complete(deps)
    ensures forall k :: k in invalid <==> LeadsTo(deps, k, bad)
    ensures forall k, d :: DependsOn(deps, k, d) && k !in invalid ==> d !in invalid
  {
    invalid := bad;
    forall k | k in bad ensures LeadsTo(deps, k, bad) { assert Chain(deps, [k]); }
    while exists k, d :: k in deps && d in deps[k] && k !in invalid && d in invalid
      invariant bad <= invalid <= deps.Keys
      invariant forall k :: k in invalid ==> LeadsTo(deps, k, bad)
      decreases deps.Keys - invalid
    {
      var k, d :| k in deps && d in deps[k] && k !in invalid && d in invalid;
      LeadsOneFurther(deps, k, d, bad);
      invalid := invalid + {k};
    }
    forall k | LeadsTo(deps, k, bad) ensures k in invalid {
      var p :| Chain(deps, p) && p[0] == k && p[|p| - 1] in bad;
      ChainInvalid(deps, invalid, p);
    }
  }

  lemma {:induction false} ChainInvalid(deps: Links, invalid: set<Key>, p: seq<Key>)
    requires Chain(deps, p) && p[|p| - 1] in invalid
    requires forall k, d {:trigger DependsOn(deps, k, d)} :: DependsOn(deps, k, d) && k !in invalid ==> d !in invalid
    ensures p[0] in invalid
  {
    if |p| > 1 {
      assert DependsOn(deps, p[0], p[1]);
      ChainTail(deps, p, 1);
      ChainInvalid(deps, invalid, p[1..]);
    }
  }
}
