/** Exposing a stored snapshot.

    A stored value is a tree of frozen containers in which shared and cyclic parts are named by index. What
    a caller gets is rebuilt from new objects: a shell per index, filled once all of them exist, so that
    references can be replaced by the objects themselves.
 */
module Views {
  import opened Options
  import opened Sequences

  datatype Kind = List | Dict | Set(frozen: bool) | Record(typeName: string)

  /** A dictionary or record entry is the tuple of its key and its value. */
  datatype Cell = Leaf(value: int) | Tuple(parts: seq<Cell>) | Ref(index: nat) | Obj(node: Container)

  class Container {
    var kind: Kind
    var items: seq<Cell>

    constructor (kind: Kind, items: seq<Cell>)
      ensures this.kind == kind && this.items == items
    {
      this.kind, this.items := kind, items;
    }
  }

  /** `c` is stored: containers nest at most `h` deep, all of them in `owned`, and references are in range. */
  ghost predicate Stored(c: Cell, n: nat, owned: set<Container>, h: nat)
    reads owned
    decreases h, c
  {
    match c
    case Leaf(_) => true
    case Tuple(parts) => forall k :: 0 <= k < |parts| ==> Stored(parts[k], n, owned, h)
    case Ref(i) => i < n
    case Obj(x) => x in owned && h > 0 && forall k :: 0 <= k < |x.items| ==> Stored(x.items[k], n, owned, h - 1)
  }

  /** `v` is `c` rebuilt, references replaced by shells: the containers in `made` are each used once. */
  ghost predicate Rebuilt(c: Cell, v: Cell, shells: seq<Container>, owned: set<Container>, made: set<Container>, h: nat)
    reads owned, made
    decreases h, c
  {
    match c
    case Leaf(_) => v == c && made == {}
    case Tuple(parts) => v.Tuple? && AllRebuilt(parts, v.parts, shells, owned, made, h)
    case Ref(i) => i < |shells| && v == Obj(shells[i]) && made == {}
    case Obj(x) =>
      && x in owned && h > 0 && v.Obj? && v.node in made && v.node.kind == x.kind
      && AllRebuilt(x.items, v.node.items, shells, owned, made - {v.node}, h - 1)
  }

  ghost predicate AllRebuilt(cells: seq<Cell>, views: seq<Cell>, shells: seq<Container>, owned: set<Container>,
      made: set<Container>, h: nat)
    reads owned, made
    decreases h, cells
  {
    |views| == |cells| &&
    if cells == [] then made == {}
    else
      var n := |cells| - 1;
      exists m :: m <= made && Rebuilt(cells[n], views[n], shells, owned, m, h)
        && AllRebuilt(cells[..n], views[..n], shells, owned, made - m, h)
  }

  ghost predicate AllStored(cells: seq<Cell>, n: nat, owned: set<Container>, h: nat)
    reads owned
  {
    forall k :: 0 <= k < |cells| ==> Stored(cells[k], n, owned, h)
  }

  lemma OneMore(cells: seq<Cell>, views: seq<Cell>, shells: seq<Container>, owned: set<Container>,
      made: set<Container>, h: nat, c: Cell, v: Cell, more: set<Container>)
    requires AllRebuilt(cells, views, shells, owned, made, h) && Rebuilt(c, v, shells, owned, more, h) && made !! more
    ensures AllRebuilt(cells + [c], views + [v], shells, owned, made + more, h)
  {
    assert (cells + [c])[..|cells|] == cells && (views + [v])[..|cells|] == views && made + more - more == made;
  }

  /** The part of `made` that position `k` uses. */
  lemma {:induction false} PartAt(cells: seq<Cell>, views: seq<Cell>, shells: seq<Container>, owned: set<Container>,
      made: set<Container>, h: nat, k: nat) returns (m: set<Container>)
    requires AllRebuilt(cells, views, shells, owned, made, h) && k < |cells|
    ensures m <= made && Rebuilt(cells[k], views[k], shells, owned, m, h)
  {
    var n := |cells| - 1;
    m :| m <= made && Rebuilt(cells[n], views[n], shells, owned, m, h)
         && AllRebuilt(cells[..n], views[..n], shells, owned, made - m, h);
    if k < n { m := PartAt(cells[..n], views[..n], shells, owned, made - m, h, k); }
  }

  /** Two positions use different parts. */
  lemma {:induction false} PartsAt(cells: seq<Cell>, views: seq<Cell>, shells: seq<Container>, owned: set<Container>,
      made: set<Container>, h: nat, j: nat, k: nat) returns (m: set<Container>, m': set<Container>)
    requires AllRebuilt(cells, views, shells, owned, made, h) && j < k < |cells|
    ensures m <= made && m' <= made && m !! m'
    ensures Rebuilt(cells[j], views[j], shells, owned, m, h) && Rebuilt(cells[k], views[k], shells, owned, m', h)
  {
    var n := |cells| - 1;
    var last :| last <= made && Rebuilt(cells[n], views[n], shells, owned, last, h)
         && AllRebuilt(cells[..n], views[..n], shells, owned, made - last, h);
    if k < n {
      m, m' := PartsAt(cells[..n], views[..n], shells, owned, made - last, h, j, k);
    } else {
      m := PartAt(cells[..n], views[..n], shells, owned, made - last, h, j);
      m' := last;
    }
  }

  /** Rebuilds one cell from new containers. */
  method Resolve(c: Cell, shells: seq<Container>, ghost owned: set<Container>, ghost h: nat)
    returns (v: Cell, ghost made: set<Container>)
    requires Stored(c, |shells|, owned, h)
    ensures fresh(made) && Rebuilt(c, v, shells, owned, made, h)
    decreases h, c
  {
    match c
    case Leaf(_) => return c, {};
    case Ref(i) => return Obj(shells[i]), {};
    case Tuple(parts) =>
      var views;
      views, made := ResolveAll(parts, shells, owned, h);
      return Tuple(views), made;
    case Obj(x) =>
      var views;
      views, made := ResolveAll(x.items, shells, owned, h - 1);
      var node := new Container(x.kind, views);
      assert made + {node} - {node} == made;
      return Obj(node), made + {node};
  }

  method ResolveAll(cells: seq<Cell>, shells: seq<Container>, ghost owned: set<Container>, ghost h: nat)
    returns (views: seq<Cell>, ghost made: set<Container>)
    requires AllStored(cells, |shells|, owned, h)
    ensures fresh(made) && AllRebuilt(cells, views, shells, owned, made, h)
    decreases h, cells
  {
    views, made := [], {};
    for i := 0 to |cells|
      invariant fresh(made) && AllRebuilt(cells[..i], views, shells, owned, made, h)
    {
      var v: Cell;
      ghost var more: set<Container>;
      v, more := Resolve(cells[i], shells, owned, h);
      OneMore(cells[..i], views, shells, owned, made, h, cells[i], v, more);
      assert cells[..i + 1] == cells[..i] + [cells[i]];
      views, made := views + [v], made + more;
    }
    assert cells[..|cells|] == cells;
  }

  /** A stored graph: the containers its references name, and where reading starts. */
  ghost predicate StoredGraph(nodes: seq<Container>, root: Cell, owned: set<Container>, h: nat)
    reads owned
  {
    && Stored(root, |nodes|, owned, h)
    && forall i :: 0 <= i < |nodes| ==> nodes[i] in owned && AllStored(nodes[i].items, |nodes|, owned, h)
  }

  ghost predicate Distinct(shells: seq<Container>) {
    forall i, j :: 0 <= i < j < |shells| ==> shells[i] != shells[j]
  }

  ghost predicate Shell(node: Container, shell: Container, shells: seq<Container>, owned: set<Container>,
      made: set<Container>, h: nat)
    reads node, shell, owned, made
  {
    shell.kind == node.kind && AllRebuilt(node.items, shell.items, shells, owned, made, h)
  }

  /** Sets of new containers that share nothing, with each other or with the shells. */
  ghost predicate Apart(made: seq<set<Container>>, shells: seq<Container>) {
    && (forall i :: 0 <= i < |made| ==> made[i] !! Elements(shells))
    && forall i, j :: 0 <= i < j < |made| ==> made[i] !! made[j]
  }

  /** Rebuilds a graph: all shells first, then what is in them. One shell stands for each index; every
      container is new, and stands at one position of the view, under one shell or under the root
      (`made`); nothing stored is written. */
  method StrictView(nodes: seq<Container>, root: Cell, ghost owned: set<Container>, ghost h: nat)
    returns (view: Cell, shells: seq<Container>, ghost made: seq<set<Container>>)
    requires StoredGraph(nodes, root, owned, h)
    ensures |shells| == |nodes| && Distinct(shells) && fresh(Elements(shells))
    ensures |made| == |nodes| + 1 && Apart(made, shells) && forall i :: 0 <= i < |made| ==> fresh(made[i])
    ensures forall i :: 0 <= i < |nodes| ==> Shell(nodes[i], shells[i], shells, owned, made[i], h)
    ensures Rebuilt(root, view, shells, owned, made[|nodes|], h)
  {
    shells := AllocateShells(nodes);
    made := FillShells(nodes, shells, owned, h);
    ghost var more;
    view, more := Resolve(root, shells, owned, h);
    made := made + [more];
  }

  /** Fills the shells, one after another. */
  method FillShells(nodes: seq<Container>, shells: seq<Container>, ghost owned: set<Container>, ghost h: nat)
    returns (ghost made: seq<set<Container>>)
    requires |shells| == |nodes| && Distinct(shells) && Elements(shells) !! owned
    requires forall i :: 0 <= i < |nodes| ==> shells[i].kind == nodes[i].kind
    requires forall i :: 0 <= i < |nodes| ==> nodes[i] in owned && AllStored(nodes[i].items, |nodes|, owned, h)
    modifies Elements(shells)
    ensures |made| == |nodes| && Apart(made, shells) && forall i :: 0 <= i < |made| ==> fresh(made[i])
    ensures forall i :: 0 <= i < |nodes| ==> Shell(nodes[i], shells[i], shells, owned, made[i], h)
  {
    made := [];
    for i := 0 to |nodes|
      invariant |made| == i && Apart(made, shells)
      invariant forall k :: 0 <= k < i ==> fresh(made[k])
      invariant forall k :: 0 <= k < |nodes| ==> shells[k].kind == nodes[k].kind
      invariant forall k :: 0 <= k < i ==> Shell(nodes[k], shells[k], shells, owned, made[k], h)
    {
      hide AllRebuilt;
      var views;
      ghost var more;
      views, more := ResolveAll(nodes[i].items, shells, owned, h);
      assert shells[i] in Elements(shells);
      shells[i].items := views;
      made := made + [more];
    }
  }

  method AllocateShells(nodes: seq<Container>) returns (shells: seq<Container>)
    ensures |shells| == |nodes| && Distinct(shells) && fresh(Elements(shells))
    ensures forall i :: 0 <= i < |nodes| ==> shells[i].kind == nodes[i].kind && shells[i].items == []
  {
    shells := [];
    for i := 0 to |nodes|
      invariant |shells| == i && Distinct(shells) && fresh(Elements(shells))
      invariant forall k :: 0 <= k < i ==> shells[k].kind == nodes[k].kind && shells[k].items == []
    {
      var shell := new Container(nodes[i].kind, []);
      assert Elements(shells + [shell]) == Elements(shells) + {shell};
      shells := shells + [shell];
    }
  }

  // ---------------------------------------------------------------------------------------------
  // One container for each position

  /** What stands at a position: the way down through tuples and containers, not through references. */
  ghost function At(c: Cell, p: seq<nat>): Option<Cell>
    reads *
    decreases |p|
  {
    if p == [] then Some(c)
    else
      var inside := if c.Tuple? then c.parts else if c.Obj? then c.node.items else [];
      if p[0] < |inside| then At(inside[p[0]], p[1..]) else None
  }

  /** Where a container was stored, there is one in the view. */
  lemma {:induction false} SamePlace(c: Cell, v: Cell, shells: seq<Container>, owned: set<Container>,
      made: set<Container>, h: nat, p: seq<nat>)
    requires Rebuilt(c, v, shells, owned, made, h) && At(c, p).Some? && At(c, p).value.Obj?
    ensures At(v, p).Some? && At(v, p).value.Obj? && At(v, p).value.node in made
    decreases |p|
  {
    if p != [] {
      match c
      case Tuple(parts) =>
        var m := PartAt(parts, v.parts, shells, owned, made, h, p[0]);
        SamePlace(parts[p[0]], v.parts[p[0]], shells, owned, m, h, p[1..]);
      case Obj(x) =>
        var m := PartAt(x.items, v.node.items, shells, owned, made - {v.node}, h - 1, p[0]);
        SamePlace(x.items[p[0]], v.node.items[p[0]], shells, owned, m, h - 1, p[1..]);
    }
  }

  /** Different positions show different containers, so nothing is shared in the view that was not named
      by a reference. */
  lemma {:induction false} OneForEach(c: Cell, v: Cell, shells: seq<Container>, owned: set<Container>,
      made: set<Container>, h: nat, p: seq<nat>, q: seq<nat>)
    requires Rebuilt(c, v, shells, owned, made, h) && p != q
    requires At(c, p).Some? && At(c, p).value.Obj? && At(c, q).Some? && At(c, q).value.Obj?
    ensures At(v, p).Some? && At(v, p).value.Obj? && At(v, q).Some? && At(v, q).value.Obj?
    ensures At(v, p).value.node != At(v, q).value.node
    decreases |p|
  {
    SamePlace(c, v, shells, owned, made, h, p);
    SamePlace(c, v, shells, owned, made, h, q);
    if p == [] {
      var m := PartAt(c.node.items, v.node.items, shells, owned, made - {v.node}, h - 1, q[0]);
      SamePlace(c.node.items[q[0]], v.node.items[q[0]], shells, owned, m, h - 1, q[1..]);
    } else if q == [] {
      var m := PartAt(c.node.items, v.node.items, shells, owned, made - {v.node}, h - 1, p[0]);
      SamePlace(c.node.items[p[0]], v.node.items[p[0]], shells, owned, m, h - 1, p[1..]);
    } else if c.Tuple? {
      OneForEachOf(c.parts, v.parts, shells, owned, made, h, p, q);
    } else {
      OneForEachOf(c.node.items, v.node.items, shells, owned, made - {v.node}, h - 1, p, q);
    }
  }

  lemma {:induction false} OneForEachOf(cells: seq<Cell>, views: seq<Cell>, shells: seq<Container>,
      owned: set<Container>,
      made: set<Container>, h: nat, p: seq<nat>, q: seq<nat>)
    requires AllRebuilt(cells, views, shells, owned, made, h) && p != q && p != [] && q != [] && p[0] < |cells|
    requires q[0] < |cells|
    requires At(cells[p[0]], p[1..]).Some? && At(cells[p[0]], p[1..]).value.Obj?
    requires At(cells[q[0]], q[1..]).Some? && At(cells[q[0]], q[1..]).value.Obj?
    ensures At(views[p[0]], p[1..]).Some? && At(views[p[0]], p[1..]).value.Obj?
    ensures At(views[q[0]], q[1..]).Some? && At(views[q[0]], q[1..]).value.Obj?
    ensures At(views[p[0]], p[1..]).value.node != At(views[q[0]], q[1..]).value.node
    decreases |p|, 0
  {
    var j, k := p[0], q[0];
    if j == k {
      var m := PartAt(cells, views, shells, owned, made, h, j);
      assert p == [j] + p[1..] && q == [j] + q[1..];
      OneForEach(cells[j], views[j], shells, owned, m, h, p[1..], q[1..]);
    } else if j < k {
      var m, m' := PartsAt(cells, views, shells, owned, made, h, j, k);
      SamePlace(cells[j], views[j], shells, owned, m, h, p[1..]);
      SamePlace(cells[k], views[k], shells, owned, m', h, q[1..]);
    } else {
      var m, m' := PartsAt(cells, views, shells, owned, made, h, k, j);
      SamePlace(cells[k], views[k], shells, owned, m, h, q[1..]);
      SamePlace(cells[j], views[j], shells, owned, m', h, p[1..]);
    }
  }

  // ---------------------------------------------------------------------------------------------
  // What the view shows

  /** Read `n` containers deep, the stored cell and the view show the same. */
  ghost predicate Alike(c: Cell, v: Cell, nodes: seq<Container>, n: nat)
    reads *
    decreases n, c
  {
    match c
    case Leaf(_) => v == c
    case Tuple(parts) => v.Tuple? && |v.parts| == |parts| && forall k :: 0 <= k < |parts| ==>
      Alike(parts[k], v.parts[k], nodes, n)
    case Ref(i) => i < |nodes| && v.Obj? && (n > 0 ==> SameContainer(nodes[i], v.node, nodes, n - 1))
    case Obj(x) => v.Obj? && (n > 0 ==> SameContainer(x, v.node, nodes, n - 1))
  }

  ghost predicate SameContainer(x: Container, y: Container, nodes: seq<Container>, n: nat)
    reads *
    decreases n
  {
    x.kind == y.kind && |x.items| == |y.items| && forall k :: 0 <= k < |x.items| ==>
      Alike(x.items[k], y.items[k], nodes, n)
  }

  /** A rebuilt graph shows what the stored one shows, to any depth, around cycles too. */
  lemma {:induction false} ViewShowsStored(nodes: seq<Container>, shells: seq<Container>, owned: set<Container>,
      made: seq<set<Container>>, h: nat, c: Cell, v: Cell, mine: set<Container>, g: nat, n: nat)
    requires |shells| == |nodes| <= |made|
    requires forall i :: 0 <= i < |nodes| ==> Shell(nodes[i], shells[i], shells, owned, made[i], h)
    requires Rebuilt(c, v, shells, owned, mine, g)
    ensures Alike(c, v, nodes, n)
    decreases n, c
  {
    match c
    case Leaf(_) =>
    case Tuple(parts) =>
      forall k | 0 <= k < |parts| ensures Alike(parts[k], v.parts[k], nodes, n) {
        var m := PartAt(parts, v.parts, shells, owned, mine, g, k);
        ViewShowsStored(nodes, shells, owned, made, h, parts[k], v.parts[k], m, g, n);
      }
    case Ref(i) =>
      var x, y := nodes[i], shells[i];
      assert Shell(x, y, shells, owned, made[i], h);
      if n > 0 {
        forall k | 0 <= k < |x.items| ensures Alike(x.items[k], y.items[k], nodes, n - 1) {
          var m := PartAt(x.items, y.items, shells, owned, made[i], h, k);
          ViewShowsStored(nodes, shells, owned, made, h, x.items[k], y.items[k], m, h, n - 1);
        }
      }
    case Obj(x) =>
      if n > 0 {
        forall k | 0 <= k < |x.items| ensures Alike(x.items[k], v.node.items[k], nodes, n - 1) {
          var m := PartAt(x.items, v.node.items, shells, owned, mine - {v.node}, g - 1, k);
          ViewShowsStored(nodes, shells, owned, made, h, x.items[k], v.node.items[k], m, g - 1, n - 1);
        }
      }
  }
}
