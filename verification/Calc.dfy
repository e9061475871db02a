/** The calc evaluator: a depth-first search reports names on reference cycles, and evaluation relies
    on it to terminate. */
module Calc {
  import opened Options

  /** Names in sort order. */
  type Name = nat

  datatype Operand = Lit(value: nat) | Ref(name: Name)
  datatype Term = Term(sign: int, operand: Operand)
  type Expr = seq<Term>
  type Table = map<Name, Expr>

  datatype Result = Value(v: int) | CycleError(name: Name) | Unbound(name: Name)

  // ---------------------------------------------------------------------------------------------
  // References and cycles

  /** The expression bound to `x` mentions `y`. */
  predicate Mentions(t: Table, x: Name, y: Name) {
    x in t && exists i :: 0 <= i < |t[x]| && t[x][i].operand == Ref(y)
  }

  ghost predicate Walk(t: Table, p: seq<Name>) {
    p != [] && forall i :: 0 <= i < |p| - 1 ==> Mentions(t, p[i], p[i + 1])
  }

  /** `y` is reached from `x` by following one mention or more. */
  ghost predicate Reaches(t: Table, x: Name, y: Name) {
    exists p :: |p| >= 2 && Walk(t, p) && p[0] == x && p[|p| - 1] == y
  }

  ghost predicate OnCycle(t: Table, x: Name) {
    Reaches(t, x, x)
  }

  lemma WalkReaches(t: Table, p: seq<Name>, i: nat, k: nat)
    requires Walk(t, p) && i < k < |p|
    ensures Reaches(t, p[i], p[k])
  {
    var q := p[i..k + 1];
    assert Walk(t, q) && q[0] == p[i] && q[|q| - 1] == p[k];
  }

  lemma ReachesStep(t: Table, x: Name, y: Name)
    requires Mentions(t, x, y)
    ensures Reaches(t, x, y)
  {
    WalkReaches(t, [x, y], 0, 1);
  }

  lemma ReachesTransitive(t: Table, x: Name, y: Name, z: Name)
    requires Reaches(t, x, y) && Reaches(t, y, z)
    ensures Reaches(t, x, z)
  {
    var p :| |p| >= 2 && Walk(t, p) && p[0] == x && p[|p| - 1] == y;
    var q :| |q| >= 2 && Walk(t, q) && q[0] == y && q[|q| - 1] == z;
    var r := p + q[1..];
    forall i | 0 <= i < |r| - 1 ensures Mentions(t, r[i], r[i + 1]) {
      if i < |p| - 1 {
        assert Mentions(t, p[i], p[i + 1]);
      } else {
        assert Mentions(t, q[i - |p| + 1], q[i - |p| + 2]);
      }
    }
    assert Walk(t, r) && r[0] == x && r[|r| - 1] == z;
  }

  /** `x` lies on a closed walk through `names`. */
  ghost predicate CycleWithin(t: Table, names: set<Name>, x: Name) {
    exists p :: |p| >= 2 && Walk(t, p) && p[0] == x && p[|p| - 1] == x && forall i :: 0 <= i < |p| ==> p[i] in names
  }

  lemma CycleWithinMore(t: Table, names: set<Name>, names': set<Name>, x: Name)
    requires CycleWithin(t, names, x) && names <= names'
    ensures CycleWithin(t, names', x) && OnCycle(t, x)
  {
    var p :| |p| >= 2 && Walk(t, p) && p[0] == x && p[|p| - 1] == x && forall i :: 0 <= i < |p| ==> p[i] in names;
    assert forall i :: 0 <= i < |p| ==> p[i] in names';
  }

  /** Every cycle meets `reported`: no closed walk avoids it. */
  ghost predicate MeetsEveryCycle(t: Table, reported: set<Name>) {
    forall p :: |p| >= 2 && Walk(t, p) && p[0] == p[|p| - 1] ==> exists i :: 0 <= i < |p| && p[i] in reported
  }

  datatype Color = OnStack | Finished

  /** A depth-first search in progress. `order` and `count` number the names as they finish. */
  datatype Search = Search(color: map<Name, Color>, path: seq<Name>, cyclic: set<Name>, order: map<Name, nat>,
    count: nat)

  ghost predicate SearchOk(t: Table, s: Search) {
    && (forall x :: x in s.color ==> x in t)
    && (forall x :: x in s.path <==> x in s.color && s.color[x] == OnStack)
    && (forall i, k :: 0 <= i < k < |s.path| ==> s.path[i] != s.path[k])
    && (s.path != [] ==> Walk(t, s.path))
    && (forall x :: x in s.cyclic ==> x in t && CycleWithin(t, s.cyclic, x))
    && (forall x :: x in s.order <==> x in s.color && s.color[x] == Finished)
    && (forall x :: x in s.order ==> s.order[x] < s.count)
    && (forall x, y {:trigger Mentions(t, x, y)} :: x in s.order && Mentions(t, x, y) && y in t ==> EdgeDone(s, x, y))
  }

  /** An edge out of a finished name leads to a name finished earlier, or both its ends are reported. */
  ghost predicate EdgeDone(s: Search, x: Name, y: Name)
    requires x in s.order
  {
    (x in s.cyclic && y in s.cyclic) || (y in s.order && s.order[y] < s.order[x])
  }

  ghost predicate Later(s: Search, s': Search) {
    && s'.cyclic >= s.cyclic && s'.count >= s.count
    && (forall x :: x in s.color ==> x in s'.color)
    && (forall x :: x in s.order ==> x in s'.order && s'.order[x] == s.order[x])
  }

  lemma Push(t: Table, s: Search, node: Name) returns (s': Search)
    requires SearchOk(t, s) && node in t && node !in s.color
    requires s.path != [] ==> Mentions(t, s.path[|s.path| - 1], node)
    ensures s' == s.(color := s.color[node := OnStack], path := s.path + [node])
    ensures SearchOk(t, s') && Later(s, s')
  {
    s' := s.(color := s.color[node := OnStack], path := s.path + [node]);
    forall i | 0 <= i < |s'.path| - 1 ensures Mentions(t, s'.path[i], s'.path[i + 1]) {}
    assert node !in s.path;
  }

  lemma Report(t: Table, s: Search, i: nat) returns (s': Search)
    requires SearchOk(t, s) && i < |s.path| && Mentions(t, s.path[|s.path| - 1], s.path[i])
    ensures s' == s.(cyclic := s.cyclic + set k | i <= k < |s.path| :: s.path[k])
    ensures SearchOk(t, s') && Later(s, s') && s.path[i] in s'.cyclic && s.path[|s.path| - 1] in s'.cyclic
  {
    BackEdge(t, s.path, i);
    s' := s.(cyclic := s.cyclic + set k | i <= k < |s.path| :: s.path[k]);
    forall x, y | x in s.order && Mentions(t, x, y) && y in t ensures EdgeDone(s', x, y) { assert EdgeDone(s, x, y); }
    var new_ := set k | i <= k < |s.path| :: s.path[k];
    forall x | x in s'.cyclic ensures x in t && CycleWithin(t, s'.cyclic, x) {
      if x in s.cyclic {
        CycleWithinMore(t, s.cyclic, s'.cyclic, x);
      } else {
        CycleWithinMore(t, new_, s'.cyclic, x);
      }
    }
  }

  lemma Finish(t: Table, refs: map<Name, set<Name>>, s: Search, node: Name) returns (s': Search)
    requires SearchOk(t, s) && s.path != [] && s.path[|s.path| - 1] == node
    requires RefsOf(t, refs) && node in t && forall y :: y in refs[node] ==> EdgeSettled(s, node, y)
    ensures s' == Search(s.color[node := Finished], s.path[..|s.path| - 1], s.cyclic, s.order[node := s.count],
                         s.count + 1)
    ensures SearchOk(t, s') && Later(s, s')
  {
    var n := |s.path| - 1;
    s' := Search(s.color[node := Finished], s.path[..n], s.cyclic, s.order[node := s.count], s.count + 1);
    assert node in s.path;
    forall x ensures x in s'.path <==> x in s'.color && s'.color[x] == OnStack {
      if x in s.path && x != node {
        var i :| 0 <= i < |s.path| && s.path[i] == x;
        assert s'.path[i] == x;
      }
    }
    forall x, y | x in s'.order && Mentions(t, x, y) && y in t ensures EdgeDone(s', x, y) {
      if x != node { assert EdgeDone(s, x, y); } else { assert y in refs[node]; }
    }
  }

  ghost predicate RefsOf(t: Table, refs: map<Name, set<Name>>) {
    && refs.Keys == t.Keys
    && forall x, y {:trigger y in refs[x]} :: x in refs ==> (y in refs[x] <==> Mentions(t, x, y) && y in t)
  }

  /** Where an edge out of a name still on the stack may lead once followed. */
  ghost predicate EdgeSettled(s: Search, x: Name, y: Name) {
    (x in s.cyclic && y in s.cyclic) || y in s.order
  }

  lemma SettledStays(s: Search, s': Search, x: Name, ys: set<Name>)
    requires Later(s, s') && forall y :: y in ys ==> EdgeSettled(s, x, y)
    ensures forall y :: y in ys ==> EdgeSettled(s', x, y)
  {}

  class CycleFinder {
    const table: Table
    const refs: map<Name, set<Name>>
    var color: map<Name, Color>
    var path: seq<Name>
    var cyclic: set<Name>
    ghost var order: map<Name, nat>
    ghost var count: nat

    ghost function S(): Search
      reads this
    {
      Search(color, path, cyclic, order, count)
    }

    ghost predicate Valid()
      reads this
    {
      RefsOf(table, refs) && SearchOk(table, S())
    }

    constructor (table: Table)
      ensures Valid() && this.table == table && S() == Search(map[], [], {}, map[], 0)
    {
      this.table := table;
      refs := map x | x in table ::
        set i | 0 <= i < |table[x]| && table[x][i].operand.Ref? && table[x][i].operand.name in table ::
          table[x][i].operand.name;
      color, path, cyclic, order, count := map[], [], {}, map[], 0;
    }

    /** Visits what `node` mentions, in sort order. Meeting a name on the stack reports the stack from
        there on. */
    method Visit(node: Name)
      requires Valid() && node in table && node !in color
      requires path != [] ==> Mentions(table, path[|path| - 1], node)
      modifies this
      ensures Valid() && path == old(path) && Later(old(S()), S()) && node in order
      decreases table.Keys - color.Keys, 0
    {
      hide SearchOk; hide Mentions; hide Later; hide RefsOf; hide EdgeSettled;
      ghost var before := S();
      ghost var s := Push(table, before, node);
      color, path := color[node := OnStack], path + [node];
      assert node in table.Keys - before.color.Keys && color.Keys == before.color.Keys + {node};
      FollowAll(node);
      LaterTwice(before, s, S());
      s := S();
      Leave(node);
      LaterTwice(before, s, S());
      assert (before.path + [node])[..|before.path|] == before.path;
    }

    /** Takes the name on top off the stack, everything it mentions being followed. */
    method Leave(node: Name)
      requires Valid() && path != [] && path[|path| - 1] == node && node in table
      requires forall y :: y in refs[node] ==> EdgeSettled(S(), node, y)
      modifies this
      ensures Valid() && path == old(path)[..|old(path)| - 1] && Later(old(S()), S()) && node in order
    {
      hide SearchOk; hide Later; hide EdgeSettled; hide RefsOf;
      ghost var s' := Finish(table, refs, S(), node);
      path := path[..|path| - 1];
      color := color[node := Finished];
      order, count := order[node := count], count + 1;
    }

    method FollowAll(node: Name)
      requires Valid() && path != [] && path[|path| - 1] == node && node in table && node in color
      modifies this
      ensures Valid() && path == old(path) && Later(old(S()), S())
      ensures forall y :: y in refs[node] ==> EdgeSettled(S(), node, y)
      decreases table.Keys - color.Keys, 2
    {
      hide SearchOk; hide Mentions; hide Later; hide EdgeSettled; hide RefsOf;
      ghost var s := S();
      RefsMentioned(table, refs, node);
      var rest := refs[node];
      StandStill(s);
      while rest != {}
        invariant Valid() && path == old(path) && Later(s, S()) && rest <= refs[node]
        invariant forall y :: y in refs[node] - rest ==> EdgeSettled(S(), node, y)
      {
        ghost var before := S();
        var nxt := Least(rest);
        StillColored(table, s, before, node);
        Follow(nxt);
        SettledStays(before, S(), node, refs[node] - rest);
        LaterTwice(s, before, S());
        rest := rest - {nxt};
      }
    }

    /** One reference out of the name on top of the stack. */
    method Follow(nxt: Name)
      requires Valid() && path != [] && nxt in table && Mentions(table, path[|path| - 1], nxt)
      modifies this
      ensures Valid() && path == old(path) && Later(old(S()), S())
      ensures EdgeSettled(S(), path[|path| - 1], nxt)
      decreases table.Keys - color.Keys, 1
    {
      hide SearchOk; hide Mentions;
      if nxt in color {
        StackColors(table, S(), nxt);
        if color[nxt] == OnStack {
          var i :| 0 <= i < |path| && path[i] == nxt;
          ghost var s' := Report(table, S(), i);
          cyclic := cyclic + set k | i <= k < |path| :: path[k];
        }
      } else {
        Visit(nxt);
      }
    }
  }

  lemma StandStill(s: Search)
    ensures Later(s, s)
  {}

  lemma StillColored(t: Table, s: Search, s': Search, node: Name)
    requires Later(s, s') && node in s.color
    ensures s.color.Keys <= s'.color.Keys && node in s'.color
  {}

  lemma RefsMentioned(t: Table, refs: map<Name, set<Name>>, node: Name)
    requires RefsOf(t, refs) && node in t
    ensures node in refs && forall y :: y in refs[node] ==> y in t && Mentions(t, node, y)
  {}

  lemma LaterTwice(s: Search, s': Search, s'': Search)
    requires Later(s, s') && Later(s', s'')
    ensures Later(s, s'')
  {}

  lemma StackColors(t: Table, s: Search, x: Name)
    requires SearchOk(t, s) && x in s.color
    ensures s.color[x] == OnStack ==> exists i :: 0 <= i < |s.path| && s.path[i] == x
    ensures s.color[x] == Finished ==> x in s.order
  {}

  method Least(s: set<Name>) returns (n: Name)
    requires s != {}
    ensures n in s && forall m :: m in s ==> n <= m
  {
    n :| n in s;
    var rest := s - {n};
    while rest != {}
      invariant rest <= s && n in s && forall m :: m in s && m !in rest ==> n <= m
    {
      var m :| m in rest;
      if m < n { n := m; }
      rest := rest - {m};
    }
  }

  /** From an edge back into the walk, everything from there on is on the cycle the edge closes. */
  lemma BackEdge(t: Table, path: seq<Name>, i: nat)
    requires Walk(t, path) && i < |path| && Mentions(t, path[|path| - 1], path[i])
    ensures forall k :: i <= k < |path| ==> CycleWithin(t, set m | i <= m < |path| :: path[m], path[k])
  {
    var names := set m | i <= m < |path| :: path[m];
    forall k | i <= k < |path| ensures CycleWithin(t, names, path[k]) {
      var p := path[k..] + path[i..k + 1];
      forall m | 0 <= m < |p| - 1 ensures Mentions(t, p[m], p[m + 1]) {
        if m < |path| - k - 1 {
          assert Mentions(t, path[k + m], path[k + m + 1]);
        } else if m >= |path| - k {
          assert Mentions(t, path[i + m - (|path| - k)], path[i + m - (|path| - k) + 1]);
        }
      }
      assert |p| >= 2 && Walk(t, p) && p[0] == path[k] && p[|p| - 1] == path[k];
    }
  }

  /** Down a walk through finished names the finishing order falls until a reported name is met. */
  lemma {:induction false} OrderFalls(t: Table, s: Search, p: seq<Name>, k: nat)
    requires SearchOk(t, s) && Walk(t, p) && 1 <= k < |p|
    requires forall i :: 0 <= i < |p| ==> p[i] in t && p[i] in s.order
    ensures (exists i :: 0 <= i < |p| && p[i] in s.cyclic) || s.order[p[k]] < s.order[p[0]]
  {
    assert Mentions(t, p[k - 1], p[k]) && EdgeDone(s, p[k - 1], p[k]);
    if k > 1 { OrderFalls(t, s, p, k - 1); }
  }

  /** `y` is mentioned by `x` and leads back to it. */
  ghost predicate LeadsBack(t: Table, x: Name, y: Name) {
    Mentions(t, x, y) && (y == x || Reaches(t, y, x))
  }

  /** No name has two ways back to itself. */
  ghost predicate OneWayBack(t: Table) {
    forall x, y, z {:trigger LeadsBack(t, x, y), LeadsBack(t, x, z)} :: LeadsBack(t, x, y) && LeadsBack(t, x, z) ==>
      y == z
  }

  lemma NextLeadsBack(t: Table, p: seq<Name>, i: nat)
    requires |p| >= 2 && Walk(t, p) && p[0] == p[|p| - 1] && i < |p| - 1
    ensures LeadsBack(t, p[i], p[i + 1])
  {
    assert Mentions(t, p[i], p[i + 1]);
    if i + 1 < |p| - 1 { WalkReaches(t, p, i + 1, |p| - 1); }
    if i > 0 {
      WalkReaches(t, p, 0, i);
      if i + 1 < |p| - 1 { ReachesTransitive(t, p[i + 1], p[0], p[i]); }
    }
  }

  /** With one way back, the cycle a reported name was reported with is the only one it lies on. */
  lemma NextReported(t: Table, cyclic: set<Name>, p: seq<Name>, i: nat)
    requires OneWayBack(t) && |p| >= 2 && Walk(t, p) && p[0] == p[|p| - 1] && i < |p| - 1
    requires p[i] in cyclic && CycleWithin(t, cyclic, p[i])
    ensures p[i + 1] in cyclic
  {
    var q :| |q| >= 2 && Walk(t, q) && q[0] == p[i] && q[|q| - 1] == p[i] && forall k :: 0 <= k < |q| ==>
      q[k] in cyclic;
    NextLeadsBack(t, p, i);
    NextLeadsBack(t, q, 0);
  }

  lemma {:induction false} ReportedOn(t: Table, cyclic: set<Name>, p: seq<Name>, i: nat, k: nat)
    requires OneWayBack(t) && |p| >= 2 && Walk(t, p) && p[0] == p[|p| - 1] && i <= k < |p|
    requires p[i] in cyclic && forall x :: x in cyclic ==> CycleWithin(t, cyclic, x)
    ensures p[k] in cyclic
    decreases k - i
  {
    if i < k {
      NextReported(t, cyclic, p, i);
      ReportedOn(t, cyclic, p, i + 1, k);
    }
  }

  /** Where no name has two ways back to itself, every name on a cycle is reported. */
  lemma AllReported(t: Table, cyclic: set<Name>, x: Name)
    requires OneWayBack(t) && MeetsEveryCycle(t, cyclic) && OnCycle(t, x)
    requires forall y :: y in cyclic ==> CycleWithin(t, cyclic, y)
    ensures x in cyclic
  {
    hide CycleWithin; hide OneWayBack; hide Walk;
    var p :| |p| >= 2 && Walk(t, p) && p[0] == x && p[|p| - 1] == x;
    var i :| 0 <= i < |p| && p[i] in cyclic;
    ReportedOn(t, cyclic, p, i, |p| - 1);
  }

  /** What a finished search has reported. */
  lemma AllMet(t: Table, s: Search)
    requires SearchOk(t, s) && s.order.Keys >= t.Keys
    ensures MeetsEveryCycle(t, s.cyclic)
    ensures forall x :: x in s.cyclic ==> x in t && OnCycle(t, x) && CycleWithin(t, s.cyclic, x)
  {
    hide CycleWithin;
    forall p | |p| >= 2 && Walk(t, p) && p[0] == p[|p| - 1] ensures exists i :: 0 <= i < |p| && p[i] in s.cyclic {
      forall i | 0 <= i < |p| ensures p[i] in t {
        if i < |p| - 1 { assert Mentions(t, p[i], p[i + 1]); } else { assert Mentions(t, p[0], p[1]); }
      }
      OrderFalls(t, s, p, |p| - 1);
    }
    forall x | x in s.cyclic ensures OnCycle(t, x) { CycleWithinMore(t, s.cyclic, s.cyclic, x); }
  }

  /** Names that take part in a reference cycle: every name reported lies on a cycle of reported names, every
      cycle has a reported name, and if no name has two ways back to itself, all names on cycles are
      reported. */
  method BindingCycles(t: Table) returns (cyclic: set<Name>)
    ensures forall x :: x in cyclic ==> x in t && OnCycle(t, x) && CycleWithin(t, cyclic, x)
    ensures MeetsEveryCycle(t, cyclic)
    ensures OneWayBack(t) ==> forall x :: OnCycle(t, x) ==> x in cyclic
  {
    hide SearchOk; hide CycleWithin; hide OnCycle; hide OneWayBack; hide MeetsEveryCycle; hide RefsOf;
    hide Mentions;
    var finder := new CycleFinder(t);
    var rest := t.Keys;
    while rest != {}
      invariant finder.Valid() && finder.table == t && finder.path == [] && rest <= t.Keys
      invariant forall x :: x in t && x !in rest ==> x in finder.order
      modifies finder
    {
      var start := Least(rest);
      if start !in finder.color {
        finder.Visit(start);
      } else {
        StackColors(t, finder.S(), start);
      }
      rest := rest - {start};
    }
    cyclic := finder.cyclic;
    AllMet(t, finder.S());
    forall x | OneWayBack(t) && OnCycle(t, x) ensures x in cyclic { AllReported(t, cyclic, x); }
  }

  /** Every cycle has a reported name, but not every name on a cycle is reported: with 0 mentioning 1 and
      2, and both 1 and 2 leading back through 1 to 0, the search has finished 1 before it comes to 2. */
  lemma SearchOmits() returns (t: Table, s: Search)
    ensures t == map[0 := [Term(1, Ref(1)), Term(1, Ref(2))], 1 := [Term(1, Ref(0))], 2 := [Term(1, Ref(1))]]
    ensures SearchOk(t, s) && s.path == [] && s.order.Keys == t.Keys
    ensures s.cyclic == {0, 1} && OnCycle(t, 2)
  {
    t := map[0 := [Term(1, Ref(1)), Term(1, Ref(2))], 1 := [Term(1, Ref(0))], 2 := [Term(1, Ref(1))]];
    var refs: map<Name, set<Name>> := map[0 := {1, 2}, 1 := {0}, 2 := {1}];
    TriangleRefs(t, refs);
    hide Mentions; hide SearchOk; hide RefsOf; hide OnCycle;
    s := SearchDown(t, refs);
    s := SearchAcross(t, refs, s);
    TwoOnCycle(t);
  }

  /** Down from 0 through 1, whose way back reports the two. */
  lemma SearchDown(t: Table, refs: map<Name, set<Name>>) returns (s: Search)
    requires RefsOf(t, refs) && SearchOk(t, NothingSearched(t)) && 0 in t && 1 in t && refs[1] == {0}
    requires Mentions(t, 0, 1) && Mentions(t, 1, 0)
    ensures SearchOk(t, s) && s == Search(map[0 := OnStack, 1 := Finished], [0], {0, 1}, map[1 := 0], 1)
  {
    hide Mentions; hide SearchOk; hide RefsOf; hide Later;
    s := Push(t, NothingSearched(t), 0);
    s := Push(t, s, 1);
    assert s.path == [0, 1];
    s := Report(t, s, 0);
    assert s.cyclic == {0, 1};
    s := Finish(t, refs, s, 1);
    assert s.path == [0];
  }

  /** From 0 to 2, which leads to a finished name only. */
  lemma SearchAcross(t: Table, refs: map<Name, set<Name>>, s: Search) returns (s': Search)
    requires RefsOf(t, refs) && SearchOk(t, s)
    requires s == Search(map[0 := OnStack, 1 := Finished], [0], {0, 1}, map[1 := 0], 1)
    requires 0 in t && 2 in t && refs[2] == {1} && refs[0] == {1, 2} && Mentions(t, 0, 2)
    ensures SearchOk(t, s') && s'.path == [] && s'.order.Keys == {0, 1, 2} && s'.cyclic == {0, 1}
  {
    hide Mentions; hide SearchOk; hide RefsOf; hide Later;
    s' := Push(t, s, 2);
    s' := Finish(t, refs, s', 2);
    s' := Finish(t, refs, s', 0);
  }

  lemma TwoOnCycle(t: Table)
    requires Mentions(t, 0, 2) && Mentions(t, 1, 0) && Mentions(t, 2, 1)
    ensures OnCycle(t, 2)
  {
    ReachesStep(t, 2, 1);
    ReachesStep(t, 1, 0);
    ReachesStep(t, 0, 2);
    ReachesTransitive(t, 2, 1, 0);
    ReachesTransitive(t, 2, 0, 2);
  }

  function NothingSearched(t: Table): Search {
    Search(map[], [], {}, map[], 0)
  }

  lemma TriangleRefs(t: Table, refs: map<Name, set<Name>>)
    requires t == map[0 := [Term(1, Ref(1)), Term(1, Ref(2))], 1 := [Term(1, Ref(0))], 2 := [Term(1, Ref(1))]]
    requires refs == map[0 := {1, 2}, 1 := {0}, 2 := {1}]
    ensures RefsOf(t, refs) && Mentions(t, 0, 1) && Mentions(t, 0, 2) && Mentions(t, 1, 0) && Mentions(t, 2, 1)
    ensures SearchOk(t, NothingSearched(t))
  {
    assert t[0][0].operand == Ref(1) && t[0][1].operand == Ref(2);
    assert t[1][0].operand == Ref(0) && t[2][0].operand == Ref(1);
  }

  // ---------------------------------------------------------------------------------------------
  // Evaluation

  /** The meaning of a name, `n` references deep: the solution of the binding equations below it. */
  ghost function Denote(t: Table, n: nat, x: Name): Option<int>
    decreases n, 0, 0
  {
    if n == 0 || x !in t then None else DenoteSum(t, n - 1, t[x])
  }

  ghost function OperandValue(t: Table, n: nat, o: Operand): Option<int>
    decreases n, 0, 1
  {
    match o
    case Lit(i) => Some(i)
    case Ref(y) => Denote(t, n, y)
  }

  ghost function DenoteSum(t: Table, n: nat, e: Expr): Option<int>
    decreases n, 1, |e|
  {
    if e == [] then Some(0)
    else
      var last := e[|e| - 1];
      var before := DenoteSum(t, n, e[..|e| - 1]);
      var v := OperandValue(t, n, last.operand);
      if before.Some? && v.Some? then Some(before.value + last.sign * v.value) else None
  }

  ghost predicate Below(t: Table, x: Name, y: Name) {
    y == x || Reaches(t, x, y)
  }

  /** Everything reached from `x` is bound and on no cycle. */
  ghost predicate WellFounded(t: Table, x: Name) {
    forall y :: Below(t, x, y) ==> y in t && !OnCycle(t, y)
  }

  lemma {:induction false} SumDefined(t: Table, n: nat, e: Expr, i: nat)
    requires DenoteSum(t, n, e).Some? && i < |e| && e[i].operand.Ref?
    ensures Denote(t, n, e[i].operand.name).Some?
    decreases |e|
  {
    if i < |e| - 1 { SumDefined(t, n, e[..|e| - 1], i); }
  }

  lemma {:induction false} WalkDefined(t: Table, n: nat, p: seq<Name>)
    requires Walk(t, p) && Denote(t, n, p[0]).Some?
    ensures n >= |p| && Denote(t, n - (|p| - 1), p[|p| - 1]).Some?
    decreases |p|
  {
    if |p| > 1 {
      assert Mentions(t, p[0], p[1]);
      var i :| 0 <= i < |t[p[0]]| && t[p[0]][i].operand == Ref(p[1]);
      SumDefined(t, n - 1, t[p[0]], i);
      forall k | 0 <= k < |p[1..]| - 1 ensures Mentions(t, p[1..][k], p[1..][k + 1]) {
        assert Mentions(t, p[k + 1], p[k + 2]);
      }
      WalkDefined(t, n - 1, p[1..]);
    }
  }

  lemma {:induction false} DefinedOffCycles(t: Table, n: nat, x: Name)
    requires Denote(t, n, x).Some?
    ensures !OnCycle(t, x)
  {
    if OnCycle(t, x) {
      var p :| |p| >= 2 && Walk(t, p) && p[0] == x && p[|p| - 1] == x;
      WalkDefined(t, n, p);
      DefinedOffCycles(t, n - (|p| - 1), x);
    }
  }

  /** Only names over well-founded references mean anything. */
  lemma DefinedIsWellFounded(t: Table, n: nat, x: Name)
    requires Denote(t, n, x).Some?
    ensures WellFounded(t, x)
  {
    forall y | Below(t, x, y) ensures y in t && !OnCycle(t, y) {
      if y == x {
        DefinedOffCycles(t, n, x);
      } else {
        var p :| |p| >= 2 && Walk(t, p) && p[0] == x && p[|p| - 1] == y;
        WalkDefined(t, n, p);
        DefinedOffCycles(t, n - (|p| - 1), y);
      }
    }
  }

  /** The names under evaluation, outermost first: a walk that avoids every reported name. */
  ghost predicate Trail(t: Table, cyclic: set<Name>, trail: seq<Name>, x: Name) {
    && Walk(t, trail + [x])
    && forall i :: 0 <= i < |trail| ==> trail[i] in t && trail[i] !in cyclic
  }

  /** Coming back to a name under evaluation would close a walk that avoids every reported name. */
  lemma ClosedTrail(t: Table, cyclic: set<Name>, trail: seq<Name>, x: Name, k: nat)
    requires Trail(t, cyclic, trail, x) && k < |trail| && trail[k] == x
    ensures var p := (trail + [x])[k..];
            |p| >= 2 && Walk(t, p) && p[0] == p[|p| - 1] && forall i :: 0 <= i < |p| ==> p[i] !in cyclic
  {
    var p := (trail + [x])[k..];
    forall i | 0 <= i < |p| - 1 ensures Mentions(t, p[i], p[i + 1]) {
      assert Mentions(t, (trail + [x])[k + i], (trail + [x])[k + i + 1]);
    }
    forall i | 0 <= i < |p| ensures p[i] !in cyclic {
      if i < |p| - 1 { assert p[i] == trail[k + i]; } else { assert p[i] == trail[k]; }
    }
  }

  /** Evaluation never comes back to a name it is in the middle of. */
  lemma NoReturn(t: Table, cyclic: set<Name>, trail: seq<Name>, x: Name)
    requires MeetsEveryCycle(t, cyclic) && Trail(t, cyclic, trail, x)
    ensures x !in trail
  {
    forall k | 0 <= k < |trail| ensures trail[k] != x {
      if trail[k] == x { ClosedTrail(t, cyclic, trail, x, k); }
    }
  }

  function NamesIn(trail: seq<Name>): set<Name> {
    set x | x in trail
  }

  ghost predicate HasValue(t: Table, x: Name) {
    exists n: nat :: Denote(t, n, x).Some?
  }

  /** In the order of its terms, `y` is the first name the expression of `x` mentions that has no value. */
  ghost predicate FirstWithout(t: Table, x: Name, y: Name) {
    x in t && exists i :: 0 <= i < |t[x]| && t[x][i].operand == Ref(y) && !HasValue(t, y) && ValuesBefore(t, x, i)
  }

  ghost predicate ValuesBefore(t: Table, x: Name, i: nat)
    requires x in t
  {
    forall j :: 0 <= j < i && j < |t[x]| && t[x][j].operand.Ref? ==> HasValue(t, t[x][j].operand.name)
  }

  /** From name to name by the first without a value. */
  ghost predicate BlameWalk(t: Table, p: seq<Name>, x: Name, z: Name) {
    p != [] && p[0] == x && p[|p| - 1] == z && forall i :: 0 <= i < |p| - 1 ==> FirstWithout(t, p[i], p[i + 1])
  }

  /** `r` names what such a walk from `x` comes to first that is reported or not bound. */
  ghost predicate Blames(t: Table, cyclic: set<Name>, x: Name, r: Result) {
    && !r.Value? && (if r.name in cyclic then r.CycleError? else r.name !in t && r.Unbound?)
    && exists p :: BlameWalk(t, p, x, r.name) && forall i :: 0 <= i < |p| - 1 ==> p[i] !in cyclic
  }

  lemma NoValue(t: Table, x: Name, z: Name)
    requires Below(t, x, z) && (OnCycle(t, z) || z !in t)
    ensures !HasValue(t, x)
  {
    forall n: nat | Denote(t, n, x).Some? ensures false { DefinedIsWellFounded(t, n, x); }
  }

  lemma BlameHere(t: Table, cyclic: set<Name>, x: Name)
    ensures x in cyclic ==> Blames(t, cyclic, x, CycleError(x))
    ensures x !in cyclic && x !in t ==> Blames(t, cyclic, x, Unbound(x))
  {
    assert BlameWalk(t, [x], x, x);
  }

  lemma BlameFurther(t: Table, cyclic: set<Name>, x: Name, y: Name, r: Result)
    requires Blames(t, cyclic, y, r) && FirstWithout(t, x, y) && x !in cyclic
    ensures Blames(t, cyclic, x, r)
  {
    hide FirstWithout;
    var p :| BlameWalk(t, p, y, r.name) && forall i :: 0 <= i < |p| - 1 ==> p[i] !in cyclic;
    var p' := [x] + p;
    forall i | 0 <= i < |p'| - 1 ensures FirstWithout(t, p'[i], p'[i + 1]) && p'[i] !in cyclic {
      if i > 0 { assert p'[i] == p[i - 1] && p'[i + 1] == p[i]; }
    }
    assert BlameWalk(t, p', x, r.name);
  }

  /** Evaluates `x`, consulting the reported cycles before every name. */
  method EvaluateName(t: Table, cyclic: set<Name>, x: Name, ghost trail: seq<Name>) returns (r: Result)
    requires MeetsEveryCycle(t, cyclic) && (forall y :: y in cyclic ==> OnCycle(t, y)) && Trail(t, cyclic, trail, x)
    ensures r.Value? ==> Denote(t, |t.Keys - NamesIn(trail)| + 1, x) == Some(r.v)
    ensures r.CycleError? ==> r.name in cyclic && Below(t, x, r.name)
    ensures r.Unbound? ==> r.name !in t && Below(t, x, r.name)
    ensures !r.Value? ==> Blames(t, cyclic, x, r)
    decreases |t.Keys - NamesIn(trail)| + 1
  {
    hide Walk; hide Trail; hide Below; hide MeetsEveryCycle; hide Mentions; hide OnCycle; hide DenoteSum;
    hide NamesIn; hide Blames;
    BelowItself(t, x);
    BlameHere(t, cyclic, x);
    if x in cyclic { return CycleError(x); }
    if x !in t { return Unbound(x); }
    var e := t[x];
    var total := 0;
    ghost var n := |t.Keys - NamesIn(trail)|;
    OneNameFewer(t, cyclic, trail, x);
    NoTerms(t, n, e);
    for i := 0 to |e|
      invariant DenoteSum(t, n, e[..i]) == Some(total) && ValuesBefore(t, x, i)
    {
      match e[i].operand {
        case Lit(v) =>
          total := total + e[i].sign * v;
        case Ref(y) =>
          ExtendTrail(t, cyclic, trail, x, i);
          var sub := EvaluateName(t, cyclic, y, trail + [x]);
          if !sub.Value? {
            BelowStep(t, x, i, sub.name);
            NoValue(t, y, sub.name);
            BlameFurther(t, cyclic, x, y, sub);
            return sub;
          }
          total := total + e[i].sign * sub.v;
      }
      OneMoreTerm(t, n, e, i);
    }
    assert e[..|e|] == e;
    return Value(total);
  }

  lemma BelowItself(t: Table, x: Name)
    ensures Below(t, x, x)
  {}

  lemma OneNameFewer(t: Table, cyclic: set<Name>, trail: seq<Name>, x: Name)
    requires MeetsEveryCycle(t, cyclic) && Trail(t, cyclic, trail, x) && x in t
    ensures |t.Keys - NamesIn(trail)| == |t.Keys - NamesIn(trail + [x])| + 1
  {
    NoReturn(t, cyclic, trail, x);
    assert t.Keys - NamesIn(trail) == (t.Keys - NamesIn(trail + [x])) + {x};
  }

  lemma NoTerms(t: Table, n: nat, e: Expr)
    ensures DenoteSum(t, n, e[..0]) == Some(0)
  {}

  lemma OneMoreTerm(t: Table, n: nat, e: Expr, i: nat)
    requires i < |e|
    ensures var before, v := DenoteSum(t, n, e[..i]), OperandValue(t, n, e[i].operand);
            DenoteSum(t, n, e[..i + 1]) ==
            if before.Some? && v.Some? then Some(before.value + e[i].sign * v.value) else None
  {
    assert e[..i + 1][..i] == e[..i];
  }

  lemma ExtendTrail(t: Table, cyclic: set<Name>, trail: seq<Name>, x: Name, k: nat)
    requires Trail(t, cyclic, trail, x) && x in t && x !in cyclic && k < |t[x]| && t[x][k].operand.Ref?
    ensures Trail(t, cyclic, trail + [x], t[x][k].operand.name)
  {
    var y := t[x][k].operand.name;
    assert Mentions(t, x, y);
    var p := trail + [x] + [y];
    forall i | 0 <= i < |p| - 1 ensures Mentions(t, p[i], p[i + 1]) {
      if i < |trail| { assert Mentions(t, (trail + [x])[i], (trail + [x])[i + 1]); }
    }
  }

  lemma BelowStep(t: Table, x: Name, k: nat, z: Name)
    requires x in t && k < |t[x]| && t[x][k].operand.Ref? && Below(t, t[x][k].operand.name, z)
    ensures Below(t, x, z)
  {
    var y := t[x][k].operand.name;
    assert Mentions(t, x, y);
    ReachesStep(t, x, y);
    if z != y { ReachesTransitive(t, x, y, z); }
  }

  // ---------------------------------------------------------------------------------------------
  // The binding equations

  /** The signed sum an expression stands for when names have the values `val` gives them. */
  ghost function SumUnder(e: Expr, val: Name -> int): int {
    if e == [] then 0
    else
      var last := e[|e| - 1];
      SumUnder(e[..|e| - 1], val) + last.sign * (match last.operand case Lit(i) => i case Ref(y) => val(y))
  }

  /** `val` solves the binding equations of everything below `x`. */
  ghost predicate Solves(t: Table, x: Name, val: Name -> int) {
    forall y {:trigger val(y)} :: Below(t, x, y) ==> y in t && val(y) == SumUnder(t[y], val)
  }

  /** Some solution of the equations below `x` gives it the value `v`. */
  ghost predicate SolvedBy(t: Table, x: Name, v: int) {
    exists val: Name -> int :: Solves(t, x, val) && val(x) == v
  }

  lemma {:induction false} DenoteMonotone(t: Table, n: nat, m: nat, x: Name)
    requires n <= m && Denote(t, n, x).Some?
    ensures Denote(t, m, x) == Denote(t, n, x)
    decreases n, 0
  {
    SumMonotone(t, n - 1, m - 1, t[x]);
  }

  lemma {:induction false} SumMonotone(t: Table, n: nat, m: nat, e: Expr)
    requires n <= m && DenoteSum(t, n, e).Some?
    ensures DenoteSum(t, m, e) == DenoteSum(t, n, e)
    decreases n, 1, |e|
  {
    if e != [] {
      SumMonotone(t, n, m, e[..|e| - 1]);
      if e[|e| - 1].operand.Ref? { DenoteMonotone(t, n, m, e[|e| - 1].operand.name); }
    }
  }

  /** A denoted sum is the sum under any valuation that agrees on what it mentions. */
  lemma {:induction false} SumAgrees(t: Table, n: nat, e: Expr, val: Name -> int)
    requires DenoteSum(t, n, e).Some?
    requires forall i :: 0 <= i < |e| && e[i].operand.Ref? ==>
      Denote(t, n, e[i].operand.name) == Some(val(e[i].operand.name))
    ensures DenoteSum(t, n, e) == Some(SumUnder(e, val))
    decreases |e|
  {
    if e != [] {
      var before := e[..|e| - 1];
      forall i | 0 <= i < |before| && before[i].operand.Ref?
        ensures Denote(t, n, before[i].operand.name) == Some(val(before[i].operand.name))
      {
        assert before[i] == e[i];
      }
      SumAgrees(t, n, before, val);
    }
  }

  lemma BelowTransitive(t: Table, x: Name, y: Name, z: Name)
    requires Below(t, x, y) && Below(t, y, z)
    ensures Below(t, x, z)
  {
    if y != x && z != y { ReachesTransitive(t, x, y, z); }
  }

  /** Whatever solves the equations agrees with what is denoted. */
  lemma {:induction false} SolutionIsDenoted(t: Table, n: nat, x: Name, y: Name, val: Name -> int)
    requires Solves(t, x, val) && Below(t, x, y) && Denote(t, n, y).Some?
    ensures Denote(t, n, y) == Some(val(y))
    decreases n
  {
    forall i | 0 <= i < |t[y]| && t[y][i].operand.Ref?
      ensures Denote(t, n - 1, t[y][i].operand.name) == Some(val(t[y][i].operand.name))
    {
      var z := t[y][i].operand.name;
      BelowItself(t, z);
      BelowStep(t, y, i, z);
      BelowTransitive(t, x, y, z);
      SumDefined(t, n - 1, t[y], i);
      SolutionIsDenoted(t, n - 1, x, z, val);
    }
    SumAgrees(t, n - 1, t[y], val);
  }

  lemma BelowDefined(t: Table, n: nat, x: Name, y: Name)
    requires Denote(t, n, x).Some? && Below(t, x, y)
    ensures y in t && Denote(t, n, y).Some?
  {
    if y != x {
      var p :| |p| >= 2 && Walk(t, p) && p[0] == x && p[|p| - 1] == y;
      WalkDefined(t, n, p);
      DenoteMonotone(t, n - (|p| - 1), n, y);
    }
  }

  /** What is denoted solves the equations. */
  lemma DenotedSolves(t: Table, n: nat, x: Name)
    requires Denote(t, n, x).Some?
    ensures SolvedBy(t, x, Denote(t, n, x).value)
  {
    var val: Name -> int := (y: Name) => if Denote(t, n, y).Some? then Denote(t, n, y).value else 0;
    forall y | Below(t, x, y) ensures y in t && val(y) == SumUnder(t[y], val) {
      BelowDefined(t, n, x, y);
      forall i | 0 <= i < |t[y]| && t[y][i].operand.Ref?
        ensures Denote(t, n - 1, t[y][i].operand.name) == Some(val(t[y][i].operand.name))
      {
        SumDefined(t, n - 1, t[y], i);
        DenoteMonotone(t, n - 1, n, t[y][i].operand.name);
      }
      SumAgrees(t, n - 1, t[y], val);
    }
    BelowItself(t, x);
    assert Solves(t, x, val) && val(x) == Denote(t, n, x).value;
  }

  ghost predicate OneSolutionBelow(t: Table, x: Name) {
    forall val: Name -> int, val': Name -> int, y: Name :: Solves(t, x, val) && Solves(t, x, val') && Below(t, x, y) ==>
      val(y) == val'(y)
  }

  /** The equations below a name over well-founded references have one solution. */
  lemma OneSolution(t: Table, n: nat, x: Name)
    requires Denote(t, n, x).Some?
    ensures OneSolutionBelow(t, x)
  {
    forall val: Name -> int, val': Name -> int, y: Name | Solves(t, x, val) && Solves(t, x, val') && Below(t, x, y)
      ensures val(y) == val'(y)
    {
      BelowDefined(t, n, x, y);
      SolutionIsDenoted(t, n, x, y, val);
      SolutionIsDenoted(t, n, x, y, val');
    }
  }

  /** The whole evaluation: it ends, gives a value exactly for names over well-founded references, and
      that value is the one the binding equations below the name have for it. An error names what is come to by
      following, from name to name, the first term without a value. */
  method Evaluate(t: Table, x: Name) returns (r: Result)
    ensures r.Value? <==> WellFounded(t, x)
    ensures r.Value? ==> SolvedBy(t, x, r.v)
    ensures r.Value? ==> OneSolutionBelow(t, x)
    ensures r.CycleError? ==> OnCycle(t, r.name) && Below(t, x, r.name)
    ensures r.Unbound? ==> r.name !in t && Below(t, x, r.name)
    ensures !r.Value? ==> exists p :: BlameWalk(t, p, x, r.name)
  {
    hide Below; hide OnCycle; hide MeetsEveryCycle; hide BlameWalk; hide SolvedBy; hide OneSolutionBelow;
    hide CycleWithin; hide OneWayBack;
    var cyclic := BindingCycles(t);
    assert Walk(t, [] + [x]);
    r := EvaluateName(t, cyclic, x, []);
    assert t.Keys - NamesIn([]) == t.Keys;
    if r.Value? {
      DefinedIsWellFounded(t, |t| + 1, x);
      DenotedSolves(t, |t| + 1, x);
      OneSolution(t, |t| + 1, x);
    }
  }
}
