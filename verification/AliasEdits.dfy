/** Removing aliases from an import list.

    `import a, b, c` with some aliases dead becomes the same statement over the others. The edits are
    computed from the positions the syntax tree reports, which may be missing; what they do to the text
    is stated on the text itself.
 */
module AliasEdits {
  import opened Options

  datatype Position = Position(line: nat, column: nat)

  datatype Alias = Alias(start: Option<Position>, end: Option<Position>)

  datatype Edit = Edit(from: Position, until: Position)

  /** Where the aliases really are: alias `i` is the text from `starts[i]` to `ends[i]`. */
  datatype Layout = Layout(text: string, starts: seq<nat>, ends: seq<nat>) {
    ghost predicate Valid() {
      && |starts| == |ends| > 0 && ends[|ends| - 1] <= |text|
      && (forall i :: 0 <= i < |starts| ==> starts[i] <= ends[i])
      && (forall i, j :: 0 <= i < j < |starts| ==> ends[i] <= starts[j])
    }

    ghost function Name(i: nat): string
      requires Valid() && i < |starts|
    {
      text[starts[i]..ends[i]]
    }

    /** What stands between alias `i` and the next: one comma, white space, perhaps a comment. */
    ghost function Separator(i: nat): string
      requires Valid() && i + 1 < |starts|
    {
      assert ends[i] <= starts[i + 1] <= ends[i + 1] <= |text| by {
      if i + 1 < |starts| - 1 { assert ends[i + 1] <= starts[|starts| - 1]; }
    }
      text[ends[i]..starts[i + 1]]
    }
  }

  /** A reported position is the real one. */
  ghost predicate Located(l: Layout, at: Position -> nat, aliases: seq<Alias>) {
    && |aliases| == |l.starts| == |l.ends|
    && forall i :: 0 <= i < |aliases| ==>
         && (aliases[i].start.Some? ==> at(aliases[i].start.value) == l.starts[i])
         && (aliases[i].end.Some? ==> at(aliases[i].end.value) == l.ends[i])
  }

  // ---------------------------------------------------------------------------------------------
  // Which aliases stay

  /** The run of dead aliases around `i` starts at `RunStart` and stops before `RunEnd`. */
  function RunStart(dead: set<nat>, i: nat): (f: nat)
    ensures f <= i && (forall j :: f <= j < i ==> j in dead) && (f > 0 ==> f - 1 !in dead)
  {
    if i > 0 && i - 1 in dead then RunStart(dead, i - 1) else i
  }

  function RunEnd(dead: set<nat>, n: nat, i: nat): (e: nat)
    requires i <= n
    ensures i <= e <= n && (forall j :: i <= j < e ==> j in dead) && (e < n ==> e !in dead)
    decreases n - i
  {
    if i < n && i in dead then RunEnd(dead, n, i + 1) else i
  }

  predicate AllPlaced(aliases: seq<Alias>, f: nat, e: nat)
    requires e <= |aliases|
  {
    forall j :: f <= j < e ==> aliases[j].start.Some? && aliases[j].end.Some?
  }

  /** The run from `f` to `e` can be cut: its own positions are known, and the one its edit borrows from
      the neighbour. */
  predicate Cuttable(aliases: seq<Alias>, f: nat, e: nat)
    requires e <= |aliases|
  {
    && AllPlaced(aliases, f, e)
    && (if e < |aliases| then aliases[e].start.Some? else f > 0 ==> f <= |aliases| && aliases[f - 1].end.Some?)
  }

  predicate Stays(aliases: seq<Alias>, dead: set<nat>, i: nat)
    requires i < |aliases|
  {
    i !in dead || !Cuttable(aliases, RunStart(dead, i), RunEnd(dead, |aliases|, i))
  }

  predicate Rising(s: seq<nat>, n: nat) {
    (forall a :: 0 <= a < |s| ==> s[a] < n) && (forall a, b :: 0 <= a < b < |s| ==> s[a] < s[b])
  }

  /** The aliases below `i` that stay, in order. */
  function StayingBelow(aliases: seq<Alias>, dead: set<nat>, i: nat): (s: seq<nat>)
    requires i <= |aliases|
    ensures Rising(s, i) && forall j: nat :: j in s <==> j < i && Stays(aliases, dead, j)
  {
    if i == 0 then [] else StayingBelow(aliases, dead, i - 1) + if Stays(aliases, dead, i - 1) then [i - 1] else []
  }

  /** The aliases of `s`, each with the separator that followed it in the text, the last one bare. */
  ghost function Joined(l: Layout, s: seq<nat>): string
    requires l.Valid() && Rising(s, |l.starts|)
  {
    if s == [] then ""
    else if |s| == 1 then l.Name(s[0])
    else
      var n := |s| - 1;
      assert s[n - 1] < s[n];
      Joined(l, s[..n]) + l.Separator(s[n - 1]) + l.Name(s[n])
  }

  // ---------------------------------------------------------------------------------------------
  // What edits do to a text

  /** Edits in order, none reaching into the next, all inside the first `limit` characters. */
  ghost predicate Disjoint(at: Position -> nat, edits: seq<Edit>, limit: nat)
  {
    && (forall i :: 0 <= i < |edits| ==> at(edits[i].from) <= at(edits[i].until) <= limit)
    && (forall i, j :: 0 <= i < j < |edits| ==> at(edits[i].until) <= at(edits[j].from))
  }

  /** The first `limit` characters of the text without the edited ranges. */
  ghost function Without(text: string, at: Position -> nat, edits: seq<Edit>, limit: nat): string
    requires limit <= |text| && Disjoint(at, edits, limit)
  {
    if edits == [] then text[..limit]
    else
      var n := |edits| - 1;
      Without(text, at, edits[..n], at(edits[n].from)) + text[at(edits[n].until)..limit]
  }

  lemma DisjointMore(at: Position -> nat, edits: seq<Edit>, limit: nat, limit': nat)
    requires Disjoint(at, edits, limit) && limit <= limit'
    ensures Disjoint(at, edits, limit')
  {}

  lemma WithoutMore(text: string, at: Position -> nat, edits: seq<Edit>, limit: nat, limit': nat)
    requires limit <= limit' <= |text| && Disjoint(at, edits, limit)
    ensures Without(text, at, edits, limit') == Without(text, at, edits, limit) + text[limit..limit']
  {
    if edits != [] {
      var n := |edits| - 1;
      assert text[at(edits[n].until)..limit'] == text[at(edits[n].until)..limit] + text[limit..limit'];
    }
  }

  // ---------------------------------------------------------------------------------------------
  // Run by run

  /** The edit that cuts the run from `f` to `e`: with the separator after it, or, as the last run, the
      separator before it. */
  function RunEdit(aliases: seq<Alias>, f: nat, e: nat): Edit
    requires f < e <= |aliases| && Cuttable(aliases, f, e)
  {
    if e < |aliases| then Edit(aliases[f].start.value, aliases[e].start.value)
    else if f > 0 then Edit(aliases[f - 1].end.value, aliases[e - 1].end.value)
    else Edit(aliases[f].start.value, aliases[e - 1].end.value)
  }

  ghost function Frontier(l: Layout, d: nat): nat
    requires l.Valid() && d <= |l.starts|
  {
    if d < |l.starts| then l.starts[d] else l.ends[d - 1]
  }

  /** The list so far: every alias with the separator after it while more is to come. */
  ghost function ListBelow(l: Layout, aliases: seq<Alias>, dead: set<nat>, d: nat): string
    requires l.Valid() && d <= |aliases| == |l.starts|
  {
    var s := StayingBelow(aliases, dead, d);
    Joined(l, s) + if d < |aliases| && s != [] then l.Separator(s[|s| - 1]) else ""
  }

  ghost predicate Untouched(l: Layout, at: Position -> nat, aliases: seq<Alias>, dead: set<nat>, edits: seq<Edit>)
    requires |aliases| == |l.starts| == |l.ends|
  {
    forall k, i :: 0 <= k < |edits| && 0 <= i < |aliases| && Stays(aliases, dead, i) ==>
      at(edits[k].until) <= l.starts[i] || l.ends[i] <= at(edits[k].from)
  }

  /** The edits so far deal with the aliases below `d` and reach no further. */
  ghost predicate Dealt(l: Layout, at: Position -> nat, aliases: seq<Alias>, dead: set<nat>, edits: seq<Edit>, d: nat) {
    && l.Valid() && Located(l, at, aliases) && d <= |aliases| == |l.starts| == |l.ends| && 0 < |aliases|
    && Disjoint(at, edits, Frontier(l, d)) && Frontier(l, d) <= |l.text|
    && (0 < d && Stays(aliases, dead, d - 1) ==> Disjoint(at, edits, l.starts[d - 1]))
    && Without(l.text, at, edits, Frontier(l, d)) == l.text[..l.starts[0]] + ListBelow(l, aliases, dead, d)
    && Untouched(l, at, aliases, dead, edits)
  }

  lemma InText(l: Layout, i: nat)
    requires l.Valid() && i < |l.starts|
    ensures l.starts[i] <= l.ends[i] <= l.ends[|l.ends| - 1] <= |l.text|
    ensures i + 1 < |l.starts| ==> l.ends[i] <= l.starts[i + 1]
  {
    if i < |l.starts| - 1 { assert l.ends[i] <= l.starts[|l.starts| - 1]; }
  }

  lemma InOrder(l: Layout, i: nat, j: nat)
    requires l.Valid() && i < j < |l.starts|
    ensures l.ends[i] <= l.starts[j]
  {}

  lemma NothingDealt(l: Layout, at: Position -> nat, aliases: seq<Alias>, dead: set<nat>)
    requires l.Valid() && Located(l, at, aliases)
    ensures Dealt(l, at, aliases, dead, [], 0)
  {
    InText(l, 0);
  }

  lemma JoinedMore(l: Layout, s: seq<nat>, d: nat)
    requires l.Valid() && Rising(s, d) && d < |l.starts|
    ensures Rising(s + [d], |l.starts|) && Rising(s, |l.starts|)
    ensures Joined(l, s + [d]) == Joined(l, s) + (if s != [] then l.Separator(s[|s| - 1]) else "") + l.Name(d)
  {
    hide Layout.Name; hide Layout.Separator;
    if s != [] { assert (s + [d])[..|s|] == s; }
  }

  lemma ListGrows(l: Layout, aliases: seq<Alias>, dead: set<nat>, d: nat)
    requires l.Valid() && d < |aliases| == |l.starts| && Stays(aliases, dead, d)
    ensures l.starts[d] <= Frontier(l, d + 1) <= |l.text|
    ensures ListBelow(l, aliases, dead, d + 1) ==
            ListBelow(l, aliases, dead, d) + l.text[l.starts[d]..Frontier(l, d + 1)]
  {
    hide Stays; hide Layout.Valid; hide Joined; hide Layout.Name; hide Layout.Separator; hide Rising;
    InText(l, d);
    if d + 1 < |aliases| { InText(l, d + 1); }
    var s := StayingBelow(aliases, dead, d);
    JoinedMore(l, s, d);
    NameAndSeparator(l, d);
    Regroup(ListBelow(l, aliases, dead, d), l.Name(d), if d + 1 < |aliases| then l.Separator(d) else "");
  }

  lemma NameAndSeparator(l: Layout, d: nat)
    requires l.Valid() && d < |l.starts|
    ensures l.starts[d] <= Frontier(l, d + 1) <= |l.text|
    ensures l.text[l.starts[d]..Frontier(l, d + 1)] == l.Name(d) + if d + 1 < |l.starts| then l.Separator(d) else ""
  {
    InText(l, d);
    if d + 1 < |l.starts| { InText(l, d + 1); }
  }

  /** An alias that stays is passed over. */
  lemma OneStays(l: Layout, at: Position -> nat, aliases: seq<Alias>, dead: set<nat>, edits: seq<Edit>, d: nat)
    requires Dealt(l, at, aliases, dead, edits, d) && d < |aliases| && Stays(aliases, dead, d)
    ensures Dealt(l, at, aliases, dead, edits, d + 1)
  {
    hide Stays; hide ListBelow; hide Untouched; hide Without; hide Disjoint; hide Layout.Valid; hide Located;
    ListGrows(l, aliases, dead, d);
    DisjointMore(at, edits, l.starts[d], Frontier(l, d + 1));
    WithoutMore(l.text, at, edits, l.starts[d], Frontier(l, d + 1));
    InText(l, 0);
    Regroup(l.text[..l.starts[0]], ListBelow(l, aliases, dead, d), l.text[l.starts[d]..Frontier(l, d + 1)]);
  }

  lemma Regroup(a: string, b: string, c: string)
    ensures (a + b) + c == a + (b + c)
  {}

  lemma {:induction false} RunStays(l: Layout, at: Position -> nat, aliases: seq<Alias>, dead: set<nat>,
      edits: seq<Edit>, d: nat, e: nat)
    requires Dealt(l, at, aliases, dead, edits, d) && d <= e <= |aliases|
    requires forall j :: d <= j < e ==> Stays(aliases, dead, j)
    ensures Dealt(l, at, aliases, dead, edits, e)
    decreases e - d
  {
    hide Dealt; hide Stays;
    if d < e {
      OneStays(l, at, aliases, dead, edits, d);
      RunStays(l, at, aliases, dead, edits, d + 1, e);
    }
  }

  ghost predicate Run(dead: set<nat>, n: nat, f: nat, e: nat) {
    f < e <= n && (f > 0 ==> f - 1 !in dead) && (e < n ==> e !in dead) && forall j :: f <= j < e ==> j in dead
  }

  lemma {:induction false} RunStartIs(dead: set<nat>, n: nat, f: nat, e: nat, i: nat)
    requires Run(dead, n, f, e) && f <= i < e
    ensures RunStart(dead, i) == f
  {
    if f < i { RunStartIs(dead, n, f, e, i - 1); }
  }

  lemma {:induction false} RunEndIs(dead: set<nat>, n: nat, f: nat, e: nat, i: nat)
    requires Run(dead, n, f, e) && f <= i < e
    ensures RunEnd(dead, n, i) == e
    decreases e - i
  {
    if i + 1 < e { RunEndIs(dead, n, f, e, i + 1); }
  }

  /** A run stays or goes as a whole. */
  lemma RunStaysOrGoes(aliases: seq<Alias>, dead: set<nat>, f: nat, e: nat)
    requires Run(dead, |aliases|, f, e)
    ensures forall j: nat :: f <= j < e ==> (Stays(aliases, dead, j) <==> !Cuttable(aliases, f, e))
  {
    forall j: nat | f <= j < e ensures Stays(aliases, dead, j) <==> !Cuttable(aliases, f, e) {
      RunStartIs(dead, |aliases|, f, e, j);
      RunEndIs(dead, |aliases|, f, e, j);
    }
  }

  /** When a dead alias goes: every alias of its run has both positions, and the neighbour at which the edit ends or
      begins has the one that counts, the start of the next alias or, after the last run, the end of the one before. */
  lemma GoesExactly(aliases: seq<Alias>, dead: set<nat>, f: nat, e: nat, i: nat)
    requires Run(dead, |aliases|, f, e) && f <= i < e
    ensures !Stays(aliases, dead, i) <==>
      && (forall j :: f <= j < e ==> aliases[j].start.Some? && aliases[j].end.Some?)
      && (e < |aliases| ==> aliases[e].start.Some?)
      && (e == |aliases| && f > 0 ==> aliases[f - 1].end.Some?)
  {
    RunStaysOrGoes(aliases, dead, f, e);
  }

  lemma {:induction false} NoneStay(aliases: seq<Alias>, dead: set<nat>, f: nat, e: nat)
    requires f <= e <= |aliases| && forall j: nat :: f <= j < e ==> !Stays(aliases, dead, j)
    ensures StayingBelow(aliases, dead, e) == StayingBelow(aliases, dead, f)
    decreases e
  {
    hide Stays;
    if f < e { NoneStay(aliases, dead, f, e - 1); }
  }

  lemma WithoutLast(text: string, at: Position -> nat, edits: seq<Edit>, x: Edit, limit: nat)
    requires Disjoint(at, edits, at(x.from)) && at(x.from) <= at(x.until) <= limit <= |text|
    ensures Disjoint(at, edits + [x], limit)
    ensures Without(text, at, edits + [x], limit) == Without(text, at, edits, at(x.from)) + text[at(x.until)..limit]
  {
    assert (edits + [x])[..|edits|] == edits;
  }

  lemma UntouchedMore(l: Layout, at: Position -> nat, aliases: seq<Alias>, dead: set<nat>, edits: seq<Edit>, x: Edit)
    requires |aliases| == |l.starts| == |l.ends| && Untouched(l, at, aliases, dead, edits)
    requires Clear(l, aliases, dead, at(x.from), at(x.until))
    ensures Untouched(l, at, aliases, dead, edits + [x])
  {}

  /** No alias that stays reaches into the text from `a` to `b`. */
  ghost predicate Clear(l: Layout, aliases: seq<Alias>, dead: set<nat>, a: nat, b: nat)
    requires |aliases| == |l.starts| == |l.ends|
  {
    forall i: nat :: i < |aliases| && Stays(aliases, dead, i) ==> b <= l.starts[i] || l.ends[i] <= a
  }

  lemma RunClear(l: Layout, aliases: seq<Alias>, dead: set<nat>, f: nat, e: nat, a: nat, b: nat)
    requires l.Valid() && |aliases| == |l.starts| == |l.ends| && Run(dead, |aliases|, f, e) && Cuttable(aliases, f, e)
    requires f > 0 ==> l.ends[f - 1] <= a
    requires e < |aliases| ==> b <= l.starts[e]
    ensures Clear(l, aliases, dead, a, b)
  {
    hide Stays; hide Cuttable; hide Layout.Valid;
    RunStaysOrGoes(aliases, dead, f, e);
    forall i: nat | i < |aliases| && Stays(aliases, dead, i) ensures b <= l.starts[i] || l.ends[i] <= a {
      InText(l, i);
      if i > e { InOrder(l, e, i); InText(l, e); }
      if f > 0 && i < f - 1 { InOrder(l, i, f - 1); InText(l, f - 1); }
    }
  }

  lemma EditAt(l: Layout, at: Position -> nat, aliases: seq<Alias>, f: nat, e: nat)
    requires Located(l, at, aliases) && f < e <= |aliases| && Cuttable(aliases, f, e)
    ensures at(RunEdit(aliases, f, e).from) == if e == |aliases| && f > 0 then l.ends[f - 1] else l.starts[f]
    ensures at(RunEdit(aliases, f, e).until) == if e < |aliases| then l.starts[e] else l.ends[e - 1]
  {}

  lemma LiveStays(aliases: seq<Alias>, dead: set<nat>, i: nat)
    requires i < |aliases| && i !in dead
    ensures Stays(aliases, dead, i)
  {}

  /** How the list reads past a run that goes. */
  lemma ListPast(l: Layout, aliases: seq<Alias>, dead: set<nat>, f: nat, e: nat)
    requires l.Valid() && |aliases| == |l.starts| && Run(dead, |aliases|, f, e) && Cuttable(aliases, f, e)
    ensures e < |aliases| ==> ListBelow(l, aliases, dead, e) == ListBelow(l, aliases, dead, f)
    ensures e == |aliases| && f > 0 ==>
      Stays(aliases, dead, f - 1) && ListBelow(l, aliases, dead, f) == ListBelow(l, aliases, dead,
        e) + l.Separator(f - 1)
    ensures e == |aliases| && f == 0 ==> ListBelow(l, aliases, dead, e) == ListBelow(l, aliases, dead, f)
  {
    hide Stays; hide Joined; hide Layout.Valid; hide Cuttable;
    RunStaysOrGoes(aliases, dead, f, e);
    NoneStay(aliases, dead, f, e);
    if f > 0 {
      LiveStays(aliases, dead, f - 1);
      var s := StayingBelow(aliases, dead, f);
      assert s[|s| - 1] == f - 1;
    }
  }

  /** A run that can be cut is cut: with the separator after it, or before it if it is the last. */
  lemma RunCut(l: Layout, at: Position -> nat, aliases: seq<Alias>, dead: set<nat>, edits: seq<Edit>, f: nat, e: nat)
    requires Dealt(l, at, aliases, dead, edits, f) && Run(dead, |aliases|, f, e) && Cuttable(aliases, f, e)
    ensures Dealt(l, at, aliases, dead, edits + [RunEdit(aliases, f, e)], e)
  {
    hide Stays; hide Untouched; hide Without; hide Disjoint; hide Clear; hide Layout.Valid; hide ListBelow;
    hide Located; hide RunEdit; hide Cuttable;
    var x := RunEdit(aliases, f, e);
    EditAt(l, at, aliases, f, e);
    ListPast(l, aliases, dead, f, e);
    GoneBefore(aliases, dead, f, e);
    InText(l, 0);
    InText(l, f);
    InText(l, e - 1);
    var from, until := at(x.from), at(x.until);
    if e < |aliases| {
      InOrder(l, f, e);
      InText(l, e);
    } else {
      if f < e - 1 { InOrder(l, f, e - 1); }
      if f > 0 {
        InText(l, f - 1);
        DisjointMore(at, edits, l.starts[f - 1], from);
        WithoutMore(l.text, at, edits, from, l.starts[f]);
        Cancel(l.text[..l.starts[0]], ListBelow(l, aliases, dead, e), l.Separator(f - 1),
          Without(l.text, at, edits, from));
      }
    }
    if f > 0 { InText(l, f - 1); }
    RunClear(l, aliases, dead, f, e, from, until);
    WithoutLast(l.text, at, edits, x, until);
    UntouchedMore(l, at, aliases, dead, edits, x);
  }

  lemma GoneBefore(aliases: seq<Alias>, dead: set<nat>, f: nat, e: nat)
    requires Run(dead, |aliases|, f, e) && Cuttable(aliases, f, e)
    ensures !Stays(aliases, dead, e - 1)
  {
    RunStaysOrGoes(aliases, dead, f, e);
  }

  lemma Cancel(a: string, b: string, c: string, d: string)
    requires d + c == a + (b + c)
    ensures d == a + b
  {
    assert d == (d + c)[..|d|];
    assert a + b == (a + (b + c))[..|a| + |b|];
  }

  // ---------------------------------------------------------------------------------------------
  // The algorithm

  /** The end of the run that starts at `first`. */
  method RunFrom(aliases: seq<Alias>, dead: set<nat>, first: nat) returns (last: nat)
    requires first < |aliases| && first in dead && (first > 0 ==> first - 1 !in dead)
    ensures first <= last && Run(dead, |aliases|, first, last + 1)
  {
    last := first;
    while last + 1 < |aliases| && last + 1 in dead
      invariant first <= last < |aliases| && forall j :: first <= j <= last ==> j in dead
    {
      last := last + 1;
    }
  }

  /** The nearest alias before `first` that is not dead. */
  method LiveBefore(dead: set<nat>, first: nat) returns (previous: Option<nat>)
    ensures previous.Some? ==>
      previous.value < first && previous.value !in dead && forall j :: previous.value < j < first ==> j in dead
    ensures previous.None? ==> forall j :: 0 <= j < first ==> j in dead
  {
    var j := first;
    while j > 0
      invariant j <= first && forall k :: j <= k < first ==> k in dead
    {
      j := j - 1;
      if j !in dead { return Some(j); }
    }
    return None;
  }

  /** The nearest alias from `first` on that is not dead. */
  method LiveFrom(aliases: seq<Alias>, dead: set<nat>, first: nat) returns (next: Option<nat>)
    requires first <= |aliases|
    ensures next.Some? ==>
      first <= next.value < |aliases| && next.value !in dead && forall j :: first <= j < next.value ==> j in dead
    ensures next.None? ==> forall j :: first <= j < |aliases| ==> j in dead
  {
    for j := first to |aliases|
      invariant forall k :: first <= k < j ==> k in dead
    {
      if j !in dead { return Some(j); }
    }
    return None;
  }

  /** The edit for one run; None if a position it needs is unknown. */
  method EditRun(aliases: seq<Alias>, dead: set<nat>, first: nat, last: nat) returns (edit: Option<Edit>)
    requires first <= last && Run(dead, |aliases|, first, last + 1)
    ensures edit == if Cuttable(aliases, first, last + 1) then Some(RunEdit(aliases, first, last + 1)) else None
  {
    if exists i :: first <= i <= last && (aliases[i].start.None? || aliases[i].end.None?) { return None; }
    var previous := LiveBefore(dead, first);
    var next := LiveFrom(aliases, dead, last + 1);
    if next.Some? {
      var after := aliases[next.value];
      if after.start.None? { return None; }
      return Some(Edit(aliases[first].start.value, after.start.value));
    } else if previous.Some? {
      var before := aliases[previous.value];
      if before.end.None? { return None; }
      return Some(Edit(before.end.value, aliases[last].end.value));
    } else {
      return Some(Edit(aliases[first].start.value, aliases[last].end.value));
    }
  }

  /** Edits that take the dead aliases out of the list, run by run. They are disjoint and in order, and
      touch no alias that stays. What is left of the text is what was before the list, the aliases that
      stay, each but the last with the separator that followed it, and what was after the list. */
  method DeletionEdits(aliases: seq<Alias>, dead: set<nat>, ghost l: Layout, ghost at: Position -> nat)
    returns (edits: seq<Edit>)
    requires l.Valid() && Located(l, at, aliases) && forall i :: i in dead ==> i < |aliases|
    ensures Disjoint(at, edits, |l.text|)
    ensures l.starts[0] <= |l.text| && Without(l.text, at, edits, |l.text|) ==
      l.text[..l.starts[0]] + Joined(l, StayingBelow(aliases, dead, |aliases|)) + l.text[l.ends[|l.ends| - 1]..]
    ensures Untouched(l, at, aliases, dead, edits)
  {
    hide Dealt; hide Located; hide Layout.Valid; hide Stays; hide Cuttable; hide RunEdit;
    edits := [];
    ghost var done := 0;
    NothingDealt(l, at, aliases, dead);
    for first := 0 to |aliases|
      invariant first <= done <= |aliases| && Dealt(l, at, aliases, dead, edits, done)
      invariant forall j :: first <= j < done ==> j in dead && first > 0 && first - 1 in dead
      invariant first == done || done == |aliases| || done !in dead
      invariant first == done && first > 0 && first < |aliases| && first in dead ==> first - 1 !in dead
    {
      if first !in dead {
        LiveStays(aliases, dead, first);
        OneStays(l, at, aliases, dead, edits, first);
        done := first + 1;
        continue;
      }
      if first > 0 && first - 1 in dead { continue; }
      var last := RunFrom(aliases, dead, first);
      var edit := EditRun(aliases, dead, first, last);
      if edit.Some? {
        RunCut(l, at, aliases, dead, edits, first, last + 1);
        edits := edits + [edit.value];
      } else {
        RunStaysOrGoes(aliases, dead, first, last + 1);
        RunStays(l, at, aliases, dead, edits, first, last + 1);
      }
      done := last + 1;
    }
    AllDealt(l, at, aliases, dead, edits);
  }

  lemma ListWhole(l: Layout, aliases: seq<Alias>, dead: set<nat>)
    requires l.Valid() && |aliases| == |l.starts|
    ensures ListBelow(l, aliases, dead, |aliases|) == Joined(l, StayingBelow(aliases, dead, |aliases|))
  {
    hide StayingBelow; hide Joined; hide Stays;
  }

  lemma AllDealt(l: Layout, at: Position -> nat, aliases: seq<Alias>, dead: set<nat>, edits: seq<Edit>)
    requires Dealt(l, at, aliases, dead, edits, |aliases|)
    ensures l.Valid() && Disjoint(at, edits, |l.text|) && Untouched(l, at, aliases, dead, edits)
    ensures l.starts[0] <= |l.text| && Without(l.text, at, edits, |l.text|) ==
      l.text[..l.starts[0]] + Joined(l, StayingBelow(aliases, dead, |aliases|)) + l.text[l.ends[|l.ends| - 1]..]
  {
    hide Stays; hide Layout.Valid; hide Located; hide Untouched; hide Without; hide Disjoint; hide ListBelow;
    hide StayingBelow; hide Joined;
    InText(l, 0);
    InText(l, |aliases| - 1);
    ListWhole(l, aliases, dead);
    DisjointMore(at, edits, l.ends[|aliases| - 1], |l.text|);
    WithoutMore(l.text, at, edits, l.ends[|aliases| - 1], |l.text|);
  }

  /** When every position is known, what stays is what is not dead. */
  lemma KnownPositionsStay(aliases: seq<Alias>, dead: set<nat>, i: nat)
    requires i < |aliases| && forall j :: 0 <= j < |aliases| ==> aliases[j].start.Some? && aliases[j].end.Some?
    ensures Stays(aliases, dead, i) <==> i !in dead
  {}
}
