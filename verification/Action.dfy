/** Reconciling declared outputs: preflight, delete orphans, prune, write, publish the ledger.

    The outside world may edit the tree before any primitive step; `env` says how. Everything that happens
    to the tree is in the log, outside edits and the run's own mutations, and the tree is what replaying the
    log gives. Without edits a run either refuses with the tree as it was or ends in the reconciled tree.
    With edits, whatever it deletes was a ledger path holding the recorded bytes when last read.
 */
module Actions {
  import opened Options
  import opened Sequences
  import opened Trees

  /** What the run does to the tree. `read` is the file as its bytes were checked, `gone` the file the
      unlink removed, `id` the identity of the file written. */
  datatype Mutation =
    | Deleted(path: Path, read: Node, gone: Node)
    | RemovedDir(path: Path)
    | Wrote(path: Path, content: Bytes, id: nat, replaced: Option<Node>)

  /** What happens to the tree, in order: an edit from outside, or a mutation of the run. */
  datatype Event = Outside | Did(mutation: Mutation)

  /** The tree, and how many edits from outside there have been. */
  datatype Scene = Scene(tree: Tree, clock: nat)

  type World = (nat, Tree) -> Tree

  function Parents(p: Path): set<Path> {
    set i | 0 < i < |p| :: p[..i]
  }

  /** The tree with a new file at `p`, its parent directories made. */
  function WithFile(t: Tree, p: Path, content: Bytes, id: nat): Tree {
    map q | q in t.Keys + Parents(p) + {p} :: if q == p then File(content, id) else if q in t then t[q] else Dir
  }

  ghost function Mutate(t: Tree, m: Mutation): Tree {
    match m
    case Deleted(p, _, _) => t - {p}
    case RemovedDir(p) => t - {p}
    case Wrote(p, content, id, _) => WithFile(t, p, content, id)
  }

  ghost function Happen(env: World, s: Scene, e: Event): Scene {
    match e
    case Outside => Scene(env(s.clock, s.tree), s.clock + 1)
    case Did(m) => Scene(Mutate(s.tree, m), s.clock)
  }

  /** A mutation says what it found: the file it unlinked, an empty directory, the file it replaced. */
  ghost predicate TrueOf(t: Tree, m: Mutation) {
    match m
    case Deleted(p, _, gone) => p in t && t[p] == gone && gone.File?
    case RemovedDir(p) => p in t && t[p].Dir? && forall e :: e in t ==> !ChildOf(e, p)
    case Wrote(p, _, _, replaced) =>
      !Blocked(t, p) && (p in t ==> t[p].File?) && replaced == if p in t then Some(t[p]) else None
  }

  ghost function Replay(env: World, s: Scene, log: seq<Event>): Scene {
    if log == [] then s else Happen(env, Replay(env, s, log[..|log| - 1]), log[|log| - 1])
  }

  /** One event before it was unlinked, the file read stood at its path. */
  ghost predicate ReadBefore(env: World, s: Scene, log: seq<Event>, m: Mutation) {
    m.Deleted? ==>
      log != [] && var t := Replay(env, s, log[..|log| - 1]).tree; m.path in t && t[m.path] == m.read
  }

  ghost predicate Truthful(env: World, s: Scene, log: seq<Event>) {
    forall i :: 0 <= i < |log| && log[i].Did? ==>
      TrueOf(Replay(env, s, log[..i]).tree, log[i].mutation) && ReadBefore(env, s, log[..i], log[i].mutation)
  }

  lemma LogOne(env: World, s: Scene, log: seq<Event>, e: Event)
    requires Truthful(env, s, log)
    requires e.Did? ==> TrueOf(Replay(env, s, log).tree, e.mutation) && ReadBefore(env, s, log, e.mutation)
    ensures Replay(env, s, log + [e]) == Happen(env, Replay(env, s, log), e) && Truthful(env, s, log + [e])
  {
    var more := log + [e];
    assert more[..|log|] == log;
    forall i | 0 <= i < |log| ensures more[..i] == log[..i] {}
  }

  /** Replaying in two parts. */
  lemma {:induction false} ReplayParts(env: World, s: Scene, log: seq<Event>, i: nat)
    requires i <= |log|
    ensures Replay(env, s, log) == Replay(env, Replay(env, s, log[..i]), log[i..])
  {
    if i < |log| {
      var n := |log| - 1;
      ReplayParts(env, s, log[..n], i);
      assert log[..n][..i] == log[..i] && log[..n][i..] == log[i..][..n - i] && log[i..][n - i] == log[n];
    } else {
      assert log[..i] == log;
    }
  }

  /** By an event of its own the run takes a file away only by deleting or replacing it. */
  lemma OwnStep(t: Tree, m: Mutation, p: Path)
    requires TrueOf(t, m) && p in t && t[p].File? && !(p in Mutate(t, m) && Mutate(t, m)[p] == t[p])
    ensures m.path == p && ((m.Deleted? && m.gone == t[p]) || (m.Wrote? && m.replaced == Some(t[p])))
  {}

  /** A file that is gone from its path, or is another by now, went by some event: an edit from outside, a
      deletion of that very file, or its replacement. */
  ghost predicate TakenBy(env: World, s: Scene, log: seq<Event>, p: Path, n: Node, i: nat) {
    && i < |log| && p in Replay(env, s, log[..i]).tree && Replay(env, s, log[..i]).tree[p] == n
    && match log[i]
       case Outside => !(p in Replay(env, s, log[..i + 1]).tree && Replay(env, s, log[..i + 1]).tree[p] == n)
       case Did(Deleted(q, _, gone)) => q == p && gone == n
       case Did(RemovedDir(_)) => false
       case Did(Wrote(q, _, _, replaced)) => q == p && replaced == Some(n)
  }

  lemma {:induction false} GoneByWhom(env: World, s: Scene, log: seq<Event>, from: nat, p: Path, n: Node)
    requires Truthful(env, s, log) && from <= |log| && n.File?
    requires p in Replay(env, s, log[..from]).tree && Replay(env, s, log[..from]).tree[p] == n
    requires !(p in Replay(env, s, log).tree && Replay(env, s, log).tree[p] == n)
    ensures exists i :: from <= i < |log| && TakenBy(env, s, log, p, n, i)
    decreases |log| - from
  {
    assert log[..|log|] == log;
    if from < |log| {
      var t := Replay(env, s, log[..from]).tree;
      assert log[..from + 1][..from] == log[..from] && log[..from + 1][from] == log[from];
      var t' := Replay(env, s, log[..from + 1]).tree;
      if p in t' && t'[p] == n {
        GoneByWhom(env, s, log, from + 1, p, n);
      } else {
        if log[from].Did? { OwnStep(t, log[from].mutation, p); }
        assert TakenBy(env, s, log, p, n, from);
      }
    }
  }

  // ---------------------------------------------------------------------------------------------
  // What was so at some point of a run

  /** Something about the tree. */
  datatype Fact =
    | Holds(path: Path, content: Bytes)
    | Stands(path: Path, node: Node)
    | Occupied(path: Path)
    | Vacant(path: Path)
    | Own(job: Job, path: Path)
    | NotOwn(job: Job, path: Path)
    | NoDirectory(path: Path)
    | Fitting(job: Job, class_: Class, path: Path)
    | InTheWay(job: Job)

  ghost predicate So(t: Tree, f: Fact) {
    match f
    case Holds(p, content) => p in t && t[p].File? && t[p].content == content
    case Stands(p, node) => p in t && t[p] == node
    case Occupied(p) => p in t && t[p].File? && forall q {:trigger Above(p, q)} :: q in t ==> !Above(p, q)
    case Vacant(p) => !(p in t && t[p].File?)
    case Own(j, o) => Owned(t, j, o)
    case NotOwn(j, o) => !Owned(t, j, o)
    case NoDirectory(a) => !(a in t && t[a].Dir?)
    case Fitting(j, c, d) => Fits(t, j, c, d)
    case InTheWay(j) => Obstructed(t, j)
  }

  /** It was so at some point of the log from event `from` on. */
  ghost predicate Once(env: World, s: Scene, from: nat, log: seq<Event>, f: Fact) {
    exists i :: from <= i <= |log| && So(Replay(env, s, log[..i]).tree, f)
  }

  lemma OnceNow(env: World, s: Scene, from: nat, log: seq<Event>, f: Fact)
    requires from <= |log| && So(Replay(env, s, log).tree, f)
    ensures Once(env, s, from, log, f)
  {
    assert log[..|log|] == log;
  }

  /** What was so once was so once of a longer run. */
  lemma OnceStill(env: World, s: Scene, from: nat, log: seq<Event>, from': nat, log': seq<Event>)
    requires from' <= from && log <= log'
    ensures forall f {:trigger Once(env, s, from, log, f)} ::
      Once(env, s, from, log, f) ==> Once(env, s, from', log', f)
  {
    hide So; hide Replay;
    forall f | Once(env, s, from, log, f) ensures Once(env, s, from', log', f) {
      var i :| from <= i <= |log| && So(Replay(env, s, log[..i]).tree, f);
      assert log'[..i] == log[..i];
    }
  }

  lemma OnceInTheWay(env: World, s: Scene, from: nat, log: seq<Event>, j: Job, a: Path, d: Path)
    requires Once(env, s, from, log, Occupied(a)) && Above(a, d) && d in j.desired
    ensures Once(env, s, from, log, InTheWay(j))
  {
    var i :| from <= i <= |log| && So(Replay(env, s, log[..i]).tree, Occupied(a));
    assert So(Replay(env, s, log[..i]).tree, InTheWay(j));
  }

  lemma OnceVacant(env: World, s: Scene, from: nat, log: seq<Event>, a: Path, d: Path)
    requires Once(env, s, from, log, Occupied(a)) && Above(a, d)
    ensures Once(env, s, from, log, Vacant(d))
  {
    var i :| from <= i <= |log| && So(Replay(env, s, log[..i]).tree, Occupied(a));
    assert So(Replay(env, s, log[..i]).tree, Vacant(d));
  }

  lemma OnceAbsent(env: World, s: Scene, from: nat, log: seq<Event>, j: Job, d: Path)
    requires Once(env, s, from, log, Vacant(d)) && d in j.desired
    ensures Once(env, s, from, log, Fitting(j, Classify(j, d, None), d))
  {
    var i :| from <= i <= |log| && So(Replay(env, s, log[..i]).tree, Vacant(d));
    ClassFits(Replay(env, s, log[..i]).tree, j, d, Classify(j, d, None));
    assert So(Replay(env, s, log[..i]).tree, Fitting(j, Classify(j, d, None), d));
  }

  /** Something that can make a run for `j` refuse: a file where one of its paths needs a directory, a directory where
      it has a file, or a directory to prune that is a file or is not empty. */
  ghost predicate Obstructed(t: Tree, j: Job) {
    || (exists p :: (p in j.ledger || p in j.desired || InPrune(j, p)) && Blocked(t, p))
    || (exists p :: (p in j.Orphans() || p in j.desired) && p in t && t[p].Dir?)
    || (exists a :: InPrune(j, a) && a in t && t[a].File?)
    || (exists a, e :: InPrune(j, a) && e in t && ChildOf(e, a))
  }

  /** The deletions in a log, in order, and the files written. */
  ghost function Deletions(log: seq<Event>): seq<Path> {
    if log == [] then []
    else
      var e := log[|log| - 1];
      Deletions(log[..|log| - 1]) + if e.Did? && e.mutation.Deleted? then [e.mutation.path] else []
  }

  ghost function Writings(log: seq<Event>): seq<Path> {
    if log == [] then []
    else
      var e := log[|log| - 1];
      Writings(log[..|log| - 1]) + if e.Did? && e.mutation.Wrote? then [e.mutation.path] else []
  }

  lemma OneEventMore(log: seq<Event>, e: Event)
    ensures Deletions(log + [e]) == Deletions(log) + if e.Did? && e.mutation.Deleted? then [e.mutation.path] else []
    ensures Writings(log + [e]) == Writings(log) + if e.Did? && e.mutation.Wrote? then [e.mutation.path] else []
  {
    assert (log + [e])[..|log|] == log;
  }

  /** While the run only watches, it deletes and writes nothing. */
  lemma {:induction false} WatchedOnly(before: seq<Event>, log: seq<Event>)
    requires Watched(before, log)
    ensures Deletions(log) == Deletions(before) && Writings(log) == Writings(before)
    decreases |log|
  {
    if |before| < |log| {
      assert log == log[..|log| - 1] + [log[|log| - 1]];
      WatchedOnly(before, log[..|log| - 1]);
    } else {
      assert log == before;
    }
  }

  /** If nobody edits the tree, what was so while the run only watched is so. */
  lemma {:induction false} QuietOnce(env: World, s: Scene, before: seq<Event>, log: seq<Event>, i: nat)
    requires (forall n, t {:trigger env(n, t)} :: env(n, t) == t) && Watched(before, log) && |before| <= i <= |log|
    ensures Replay(env, s, log[..i]).tree == Replay(env, s, before).tree
    decreases i
  {
    if i == |before| {
      assert log[..i] == before;
    } else {
      QuietOnce(env, s, before, log, i - 1);
      assert log[..i][..i - 1] == log[..i - 1] && log[..i][i - 1] == Outside;
    }
  }

  ghost predicate DidWrite(log: seq<Event>, from: nat, p: Path, content: Bytes) {
    exists i :: from <= i < |log| && IsWrite(log[i], p, content)
  }

  ghost predicate IsWrite(e: Event, p: Path, content: Bytes) {
    e.Did? && e.mutation.Wrote? && e.mutation.path == p && e.mutation.content == content
  }

  ghost predicate DidDelete(log: seq<Event>, from: nat, p: Path) {
    exists i :: from <= i < |log| && log[i].Did? && log[i].mutation.Deleted? && log[i].mutation.path == p
  }

  ghost predicate DidRemove(log: seq<Event>, from: nat, p: Path) {
    exists i :: from <= i < |log| && log[i] == Did(RemovedDir(p))
  }

  /** What was done was done in a longer run. */
  lemma DidStill(from: nat, log: seq<Event>, from': nat, log': seq<Event>)
    requires from' <= from && log <= log'
    ensures forall p, c {:trigger DidWrite(log, from, p, c)} ::
      DidWrite(log, from, p, c) ==> DidWrite(log', from', p, c)
    ensures forall p {:trigger DidDelete(log, from, p)} :: DidDelete(log, from, p) ==> DidDelete(log', from', p)
    ensures forall p {:trigger DidRemove(log, from, p)} :: DidRemove(log, from, p) ==> DidRemove(log', from', p)
  {
    assert forall i :: 0 <= i < |log| ==> log'[i] == log[i];
  }

  /** A desired output was written, or stood with its bytes at some point. */
  ghost predicate Provided(env: World, s: Scene, from: nat, log: seq<Event>, j: Job, d: Path)
    requires d in j.desired
  {
    DidWrite(log, from, d, j.desired[d]) || Once(env, s, from, log, Holds(d, j.desired[d]))
  }

  /** An orphan was deleted, or at some point did not stand with the recorded bytes, or was replaced meanwhile. */
  ghost predicate Released(env: World, s: Scene, from: nat, log: seq<Event>, j: Job, o: Path) {
    || DidDelete(log, from, o) || Once(env, s, from, log, NotOwn(j, o))
    || exists n, n' :: n != n' && Once(env, s, from, log, Stands(o, n)) && Once(env, s, from, log, Stands(o, n'))
  }

  lemma ReleasedStill(env: World, s: Scene, from: nat, log: seq<Event>, log': seq<Event>, j: Job)
    requires log <= log'
    ensures forall o {:trigger Released(env, s, from, log, j, o)} ::
      Released(env, s, from, log, j, o) ==> Released(env, s, from, log', j, o)
  {
    hide Once;
    OnceStill(env, s, from, log, from, log');
    DidStill(from, log, from, log');
  }

  /** A directory of the previous layout was removed, or at some point was no directory. */
  ghost predicate Emptied(env: World, s: Scene, from: nat, log: seq<Event>, a: Path) {
    DidRemove(log, from, a) || Once(env, s, from, log, NoDirectory(a))
  }

  lemma EmptiedStill(env: World, s: Scene, from: nat, log: seq<Event>, log': seq<Event>)
    requires log <= log'
    ensures forall a {:trigger Emptied(env, s, from, log, a)} ::
      Emptied(env, s, from, log, a) ==> Emptied(env, s, from, log', a)
  {
    hide Once;
    OnceStill(env, s, from, log, from, log');
    DidStill(from, log, from, log');
  }

  /** Everything there is to do for `j` was done since event `from`. */
  ghost predicate CarriedOut(env: World, s: Scene, from: nat, log: seq<Event>, j: Job) {
    && (forall d :: d in j.desired ==> Provided(env, s, from, log, j, d))
    && (forall o :: o in j.Orphans() ==> Released(env, s, from, log, j, o))
    && (forall a {:trigger InPrune(j, a)} :: InPrune(j, a) ==> Emptied(env, s, from, log, a))
  }

  /** What a run for `j` may do. */
  ghost predicate Allowed(j: Job, m: Mutation) {
    match m
    case Deleted(p, read, gone) =>
      p in j.Orphans() && read.File? && read.content == j.ledger[p] && gone.File? && gone.id == read.id
    case RemovedDir(p) => InPrune(j, p)
    case Wrote(p, content, _, replaced) =>
      p in j.desired && content == j.desired[p] && (replaced.Some? ==> replaced.value.File?)
  }

  datatype Report = Report(
    created: seq<Path>, updated: seq<Path>, repaired: seq<Path>, deleted: seq<Path>, same: seq<Path>)

  /** Stopped: the process died after a mutation, before the run was over. */
  datatype Outcome = Finished(report: Report) | Refused | Stopped

  /** How a mutating step went: done, nothing to do, an error, or the process died before it. */
  datatype Step = Done | Skipped | Failed | Died

  /** What a look at an orphan comes to. */
  datatype Look = Free | Foreign | Mine | Refuses

  /** How a desired output compares with what stands at its path. */
  datatype Class = Created | Updated | Repaired | Unchanged

  function Classify(j: Job, d: Path, current: Option<Bytes>): Class
    requires d in j.desired
  {
    if current == Some(j.desired[d]) then Unchanged
    else if current.None? then (if d in j.ledger then Repaired else Created)
    else if d in j.ledger && current.value != j.ledger[d] then Repaired
    else Updated
  }

  ghost function Current(t: Tree, p: Path): Option<Bytes> {
    if p in t && t[p].File? then Some(t[p].content) else None
  }

  /** `s` lists exactly the paths of `elems`, in order. */
  ghost predicate Lists(order: Path -> int, s: seq<Path>, elems: set<Path>) {
    && (forall x :: x in s <==> x in elems)
    && (forall i, k :: 0 <= i < k < |s| ==> order(s[i]) < order(s[k]))
  }

  lemma {:induction false} ListsUnique(order: Path -> int, s: seq<Path>, s': seq<Path>, elems: set<Path>)
    requires Lists(order, s, elems) && Lists(order, s', elems)
    ensures s == s'
  {
    if s != [] { assert s[0] in s; }
    if s' != [] { assert s'[0] in s'; }
    assert s == [] <==> s' == [];
    if s != [] {
      var i :| 0 <= i < |s'| && s'[i] == s[0];
      var k :| 0 <= k < |s| && s[k] == s'[0];
      assert s[0] == s'[0];
      ListsTail(order, s, elems);
      ListsTail(order, s', elems);
      ListsUnique(order, s[1..], s'[1..], elems - {s[0]});
      assert s == [s[0]] + s[1..] && s' == [s'[0]] + s'[1..];
    }
  }

  lemma ListsTail(order: Path -> int, s: seq<Path>, elems: set<Path>)
    requires Lists(order, s, elems) && s != []
    ensures Lists(order, s[1..], elems - {s[0]})
  {
    forall x ensures x in s[1..] <==> x in elems - {s[0]} {
      if x in s[1..] { var m :| 0 <= m < |s[1..]| && s[1..][m] == x; assert s[m + 1] == x; }
      if x in elems - {s[0]} { var m :| 0 <= m < |s| && s[m] == x; assert s[1..][m - 1] == x; }
    }
  }

  /** What the report says of `d` by putting it into class `c`. An output is unchanged if it stands as desired;
      created if nothing stood there and the ledger did not have it; repaired if the ledger had it and neither what
      it recorded nor what is desired stands there; updated if another file stands there, the one recorded if the
      ledger had it. */
  ghost predicate Fits(t: Tree, j: Job, c: Class, d: Path) {
    && d in j.desired
    && var standing, asDesired := d in t && t[d].File?, (d in t && t[d].File? && t[d].content == j.desired[d]);
       var asRecorded := d in j.ledger && d in t && t[d].File? && t[d].content == j.ledger[d];
       match c
       case Unchanged => asDesired
       case Created => !standing && d !in j.ledger
       case Repaired => d in j.ledger && !asRecorded && !asDesired
       case Updated => standing && !asDesired && (d in j.ledger ==> asRecorded)
  }

  lemma ClassFits(t: Tree, j: Job, d: Path, c: Class)
    requires d in j.desired
    ensures Fits(t, j, c, d) <==> c == Classify(j, d, Current(t, d))
  {}

  ghost function InClass(t: Tree, j: Job, c: Class): set<Path> {
    set d | d in j.desired && Fits(t, j, c, d)
  }

  ghost function OfClass(classes: map<Path, Class>, c: Class): set<Path> {
    set d | d in classes && classes[d] == c
  }

  /** The lists of the report, by class. */
  ghost predicate Sorts(order: Path -> int, r: Report, classes: map<Path, Class>) {
    && Lists(order, r.created, OfClass(classes, Created)) && Lists(order, r.updated, OfClass(classes, Updated))
    && Lists(order, r.repaired, OfClass(classes, Repaired)) && Lists(order, r.same, OfClass(classes, Unchanged))
  }

  /** Each desired output is in the one list that fits what stood at its path at some point. */
  ghost predicate Witnessed(env: World, s: Scene, from: nat, log: seq<Event>, order: Path -> int, j: Job, r: Report) {
    exists classes :: Sorts(order, r, classes) && Seen(env, s, from, log, j, classes)
  }

  ghost predicate Seen(env: World, s: Scene, from: nat, log: seq<Event>, j: Job, classes: map<Path, Class>) {
    classes.Keys == j.desired.Keys && forall d :: d in classes ==> Once(env, s, from, log, Fitting(j, classes[d], d))
  }

  ghost function OwnedIn(t: Tree, j: Job): set<Path> {
    set o | o in j.Orphans() && Owned(t, j, o)
  }

  /** The report of a run over `t`. */
  ghost predicate Reports(order: Path -> int, t: Tree, j: Job, r: Report) {
    && Lists(order, r.created, InClass(t, j, Created)) && Lists(order, r.updated, InClass(t, j, Updated))
    && Lists(order, r.repaired, InClass(t, j, Repaired)) && Lists(order, r.same, InClass(t, j, Unchanged))
    && Lists(order, r.deleted, OwnedIn(t, j))
  }

  /** There is one report to give over one tree. */
  lemma ReportUnique(order: Path -> int, t: Tree, j: Job, r: Report, r': Report)
    requires Reports(order, t, j, r) && Reports(order, t, j, r')
    ensures r == r'
  {
    ListsUnique(order, r.created, r'.created, InClass(t, j, Created));
    ListsUnique(order, r.updated, r'.updated, InClass(t, j, Updated));
    ListsUnique(order, r.repaired, r'.repaired, InClass(t, j, Repaired));
    ListsUnique(order, r.same, r'.same, InClass(t, j, Unchanged));
    ListsUnique(order, r.deleted, r'.deleted, OwnedIn(t, j));
  }

  /** Whatever the outside world does: a file that stood when the run began and is gone by its end went by an
      edit from outside; or the run deleted it, an orphan which, one event earlier, was read with the recorded
      bytes and had the same identity; or the run replaced it by a desired output. */
  lemma Accounted(env: World, s: Scene, j: Job, before: seq<Event>, log: seq<Event>, p: Path, n: Node)
    requires Truthful(env, s, log) && AllowedSince(j, before, log) && n.File?
    requires p in Replay(env, s, before).tree && Replay(env, s, before).tree[p] == n
    requires !(p in Replay(env, s, log).tree && Replay(env, s, log).tree[p] == n)
    ensures exists i ::
      && |before| <= i < |log| && TakenBy(env, s, log, p, n, i)
      && (log[i].Outside? || RightlyTaken(env, s, j, log, p, n, i))
  {
    assert log[..|before|] == before;
    GoneByWhom(env, s, log, |before|, p, n);
    var i :| |before| <= i < |log| && TakenBy(env, s, log, p, n, i);
    assert log[i].Did? ==> Allowed(j, log[i].mutation) && ReadBefore(env, s, log[..i], log[i].mutation);
    assert i > 0 ==> log[..i][..i - 1] == log[..i - 1];
  }

  ghost predicate RightlyTaken(env: World, s: Scene, j: Job, log: seq<Event>, p: Path, n: Node, i: nat) {
    && i < |log| && n.File?
    && ((p in j.Orphans() && i > 0 &&
         var t := Replay(env, s, log[..i - 1]).tree;
         p in t && t[p].File? && t[p].content == j.ledger[p] && t[p].id == n.id)
        || (p in j.desired && log[i].Did? && log[i].mutation.Wrote?))
  }

  ghost predicate Injective(order: Path -> int) {
    forall p, q {:trigger order(p), order(q)} :: order(p) == order(q) ==> p == q
  }

  ghost predicate Safe(env: World) {
    forall n, t {:trigger env(n, t)} :: WellFormed(t) ==> WellFormed(env(n, t))
  }

  class Root {
    var tree: Tree
    /** The published ledger; None if there is none yet. */
    var ledger: Option<map<Path, Bytes>>
    var clock: nat
    var nextId: nat
    /** How many more mutations the process lives to make; None if it is not cut short. */
    var fuse: Option<nat>
    const env: World
    const order: Path -> int
    /** What has happened since the beginning. */
    ghost const begin: Scene
    ghost var log: seq<Event>

    ghost predicate Valid()
      reads this
    {
      WellFormed(tree) && Safe(env) && Injective(order) && Logged()
    }

    /** The tree is what replaying the log gives, and the log is true. */
    ghost predicate Logged()
      reads this
    {
      Scene(tree, clock) == Replay(env, begin, log) && Truthful(env, begin, log)
    }

    /** It was so at some point since event `from`. */
    ghost predicate OnceSo(from: nat, f: Fact)
      reads this
    {
      Once(env, begin, from, log, f)
    }

    /** Nobody edits the tree from outside. */
    ghost predicate Quiet() {
      forall n, t {:trigger env(n, t)} :: env(n, t) == t
    }

    constructor (tree: Tree, ledger: Option<map<Path, Bytes>>, env: World, order: Path -> int,
        fuse: Option<nat>)
      requires WellFormed(tree) && Safe(env) && Injective(order)
      ensures Valid() && this.tree == tree && this.ledger == ledger && this.env == env && this.order == order
      ensures log == [] && begin == Scene(tree, 0) && this.fuse == fuse
    {
      this.tree, this.ledger, this.env, this.order, this.fuse := tree, ledger, env, order, fuse;
      clock, nextId, log, begin := 0, 0, [], Scene(tree, 0);
    }

    // -------------------------------------------------------------------------------------------
    // Primitive steps

    /** The outside world may edit the tree. */
    method Tick()
      requires Valid()
      modifies this`tree, this`clock, this`log
      ensures Valid() && (Quiet() ==> tree == old(tree)) && log == old(log) + [Outside]
    {
      hide Replay; hide Truthful;
      LogOne(env, begin, log, Outside);
      tree := env(clock, tree);
      clock := clock + 1;
      log := log + [Outside];
    }

    /** Walks to `p` without leaving directories; `node` is what stands there. False: refused. */
    method SafeTarget(p: Path) returns (ok: bool, node: Option<Node>)
      requires Valid() && p != []
      modifies this`tree, this`clock, this`log
      ensures Valid() && (Quiet() ==> tree == old(tree)) && log == old(log) + [Outside]
      ensures ok <==> !Blocked(tree, p)
      ensures ok ==> node == if p in tree then Some(tree[p]) else None
    {
      hide Replay; hide Truthful;
      Tick();
      for i := 1 to |p| + 1
        invariant forall k :: 1 <= k < i ==> p[..k] in tree && (k < |p| ==> tree[p[..k]].Dir?)
      {
        var cur := p[..i];
        if cur !in tree {
          NothingBelowMissing(tree, p, i);
          return true, None;
        }
        if i < |p| && !tree[cur].Dir? {
          assert Above(cur, p);
          return false, None;
        }
      }
      assert p[..|p|] == p;
      assert forall a :: Above(a, p) ==> a == p[..|a|];
      return true, Some(tree[p]);
    }

    /** A regular file in the place of one of its parent directories makes a recorded path unreachable. */
    method OrphanCannotExist(p: Path) returns (unreachable: bool)
      requires Valid() && p != []
      modifies this`tree, this`clock, this`log
      ensures Valid() && (Quiet() ==> tree == old(tree)) && log == old(log) + [Outside]
      ensures unreachable <==> Blocked(tree, p)
    {
      hide Replay; hide Truthful;
      Tick();
      for i := 1 to |p|
        invariant forall k :: 1 <= k < i ==> p[..k] in tree && tree[p[..k]].Dir?
      {
        var cur := p[..i];
        if cur !in tree {
          NothingBelowMissing(tree, p, i);
          return false;
        }
        if !tree[cur].Dir? {
          assert Above(cur, p);
          return true;
        }
      }
      assert forall a :: Above(a, p) ==> a == p[..|a|];
      return false;
    }

    /** The bytes of the regular file at `p`, with its identity; None if nothing is there. False: an
        error, refused. */
    method ReadFile(p: Path) returns (ok: bool, read: Option<Node>)
      requires Valid() && p != []
      modifies this`tree, this`clock, this`log
      ensures Valid() && (Quiet() ==> tree == old(tree)) && log == old(log) + [Outside]
      ensures ok <==> !Blocked(tree, p) && (p in tree ==> tree[p].File?)
      ensures ok ==> read == if p in tree then Some(tree[p]) else None
    {
      hide Replay; hide Truthful;
      var node: Option<Node>;
      ok, node := SafeTarget(p);
      if ok && node.Some? && node.value.Dir? { return false, None; }
      return ok, node;
    }

    /** Does the directory at `p` hold, at any depth, only regular files of the desired set? */
    method HoldsOnlyDesiredFiles(p: Path, j: Job) returns (only: bool)
      requires Valid() && p != []
      modifies this`tree, this`clock, this`log
      ensures Valid() && (Quiet() ==> tree == old(tree)) && log == old(log) + [Outside]
      ensures only <==> p in tree && tree[p].Dir? && HoldsOnlyDesired(tree, j, p)
    {
      hide Replay; hide Truthful;
      Tick();
      if p !in tree || !tree[p].Dir? { return false; }
      var pending: set<Path> := {p};
      ghost var t := tree;
      while pending != {}
        invariant Valid() && tree == t && log == old(log) + [Outside]
        invariant forall d :: d in pending ==> d in tree && tree[d].Dir? && (d == p || Above(p, d))
        invariant forall x, y {:trigger Above(x, y)} :: x in pending && y in pending ==> !Above(x, y)
        invariant forall q {:trigger Above(p, q)} :: Stray(tree, j, q) && Above(p, q) ==>
          exists d :: d in pending && Above(d, q)
        decreases DirsUnder(tree, pending)
      {
        var dir :| dir in pending;
        var entries := set e | e in tree && ChildOf(e, dir);
        if e :| e in entries && tree[e].File? && e !in j.desired {
          if dir != p { AboveTransitive(p, dir, e); }
          assert Above(p, e);
          return false;
        }
        ghost var before := pending;
        pending := pending - {dir} + set e | e in entries && tree[e].Dir?;
        Descended(tree, j, p, before, dir, pending);
      }
      return true;
    }

    /** The first entry, in order, that stops the directory from being pruned. Where `owned` and `prune` are
        what preflight takes them for, there is none exactly if the directory can be emptied. */
    method UnprunableEntry(a: Path, owned: set<Path>, prune: set<Path>) returns (entry: Option<Path>)
      requires Valid() && a != []
      modifies this`tree, this`clock, this`log
      ensures Valid() && (Quiet() ==> tree == old(tree)) && log == old(log) + [Outside]
      ensures entry.Some? ==> Unprunable(tree, a, owned, prune, entry.value)
      ensures entry.Some? ==> forall e :: Unprunable(tree, a, owned, prune, e) ==> order(entry.value) <= order(e)
      ensures entry.None? ==> forall e :: !Unprunable(tree, a, owned, prune, e)
      ensures forall j: Job :: Decided(tree, j, a, owned, prune) ==> (entry.None? <==> PrunePasses(tree, j, a))
    {
      hide WellFormed; hide Owned; hide InPrune; hide Replay; hide Truthful; hide Blocked;
      Tick();
      forall j: Job | Decided(tree, j, a, owned, prune)
        ensures PrunePasses(tree, j, a) <==> forall e :: !Unprunable(tree, a, owned, prune, e)
      {
        DecidedPasses(tree, j, a, owned, prune);
      }
      if a !in tree || !tree[a].Dir? {
        ChildOfDirectory(tree, a);
        return None;
      }
      var listing := Sorted(set e | e in tree && ChildOf(e, a));
      for k := 0 to |listing|
        invariant Valid() && log == old(log) + [Outside] && (Quiet() ==> tree == old(tree))
        invariant forall m :: 0 <= m < k ==> !Unprunable(tree, a, owned, prune, listing[m])
      {
        var e := listing[k];
        assert e in listing;
        if e in owned || (e in prune && tree[e].Dir?) { continue; }
        forall x | Unprunable(tree, a, owned, prune, x) ensures order(e) <= order(x) {
          assert x in listing;
        }
        return Some(e);
      }
      forall e | e in tree && ChildOf(e, a) ensures !Unprunable(tree, a, owned, prune, e) { assert e in listing; }
      return None;
    }

    // -------------------------------------------------------------------------------------------
    // Mutations

    method Burn() returns (alive: bool)
      modifies this`fuse
      ensures !alive <==> old(fuse) == Some(0)
      ensures !alive ==> fuse == old(fuse)
      ensures fuse.None? <==> old(fuse).None?
    {
      match fuse
      case None => return true;
      case Some(n) =>
        if n == 0 { return false; }
        fuse := Some(n - 1);
        return true;
    }

    /** A mutation of the run, made on the tree as it stands. */
    method Perform(m: Mutation)
      requires Valid() && TrueOf(tree, m) && WellFormed(Mutate(tree, m)) && ReadBefore(env, begin, log, m)
      modifies this`tree, this`log
      ensures Valid() && log == old(log) + [Did(m)]
      ensures tree == Mutate(old(tree), m)
    {
      hide Replay; hide Truthful; hide WellFormed; hide TrueOf;
      LogOne(env, begin, log, Did(m));
      log := log + [Did(m)];
      match m
      case Deleted(p, _, _) => tree := tree - {p};
      case RemovedDir(p) => tree := tree - {p};
      case Wrote(p, content, id, _) => tree := WithFile(tree, p, content, id);
    }

    /** Unlinks the regular file at `p` if it is still the file `read`. */
    method Unlink(p: Path, id: nat, read: Node) returns (step: Step)
      requires Valid() && p != [] && p in tree && tree[p] == read && read.File? && read.id == id
      modifies this`tree, this`clock, this`fuse, this`log
      ensures Valid() && (fuse.None? <==> old(fuse).None?) && (step == Died ==> fuse == Some(0))
      ensures step != Done ==> log == old(log) + [Outside] && (Quiet() ==> tree == old(tree))
      ensures step == Done ==> exists gone: Node ::
        gone.File? && gone.id == id && log == old(log) + [Outside] + [Did(Deleted(p, read, gone))]
      ensures step == Failed ==> Blocked(tree, p) || (p in tree && tree[p].Dir?)
      ensures step == Skipped ==> p !in tree || tree[p] != read
      ensures step == Done && Quiet() ==> p in old(tree) && tree == old(tree) - {p}
      ensures Quiet() && p in old(tree) && old(tree)[p] == read ==> step == Done || step == Died
    {
      hide Replay; hide Truthful;
      Tick();
      if p !in tree {
        var blocked := IsBlocked(p);
        return if blocked then Failed else Skipped;
      }
      if tree[p].Dir? { return Failed; }
      if tree[p].id != id { return Skipped; }
      var alive := Burn();
      if !alive { return Died; }
      assert log[..|log| - 1] == old(log);
      Perform(Deleted(p, read, tree[p]));
      return Done;
    }

    method IsBlocked(p: Path) returns (blocked: bool)
      requires Valid()
      ensures blocked <==> Blocked(tree, p)
    {
      blocked := exists i :: 0 < i < |p| && p[..i] in tree && tree[p[..i]].File?;
      if blocked {
        var i :| 0 < i < |p| && p[..i] in tree && tree[p[..i]].File?;
        assert Above(p[..i], p);
      } else {
        assert forall a :: Above(a, p) ==> a == p[..|a|];
      }
    }

    method RemoveEmptyDirectory(a: Path) returns (step: Step)
      requires Valid() && a != []
      modifies this`tree, this`clock, this`fuse, this`log
      ensures Valid() && (fuse.None? <==> old(fuse).None?) && (step == Died ==> fuse == Some(0))
      ensures step != Done ==> log == old(log) + [Outside] && (Quiet() ==> tree == old(tree))
      ensures step == Done ==> log == old(log) + [Outside] + [Did(RemovedDir(a))]
      ensures step == Failed ==>
        Blocked(tree, a) || (a in tree && tree[a].File?) || exists e :: e in tree && ChildOf(e, a)
      ensures step == Skipped ==> a !in tree
      ensures step == Done && Quiet() ==> a in old(tree) && tree == old(tree) - {a}
      ensures Quiet() && a in old(tree) && old(tree)[a].Dir? && (forall e :: e in old(tree) ==> !ChildOf(e, a)) ==>
        step == Done || step == Died
    {
      hide Replay; hide Truthful;
      Tick();
      if a !in tree {
        var blocked := IsBlocked(a);
        return if blocked then Failed else Skipped;
      }
      if tree[a].File? { return Failed; }
      if exists e :: e in tree && ChildOf(e, a) { return Failed; }
      var alive := Burn();
      if !alive { return Died; }
      EmptyDirectory(tree, a);
      Perform(RemovedDir(a));
      return Done;
    }

    /** Publishes the bytes at `p`, making the parent directories it needs. */
    method AtomicWrite(p: Path, content: Bytes) returns (step: Step)
      requires Valid() && p != []
      modifies this`tree, this`clock, this`fuse, this`log, this`nextId
      ensures Valid() && (fuse.None? <==> old(fuse).None?) && (step == Died ==> fuse == Some(0))
      ensures step != Skipped
      ensures step != Done ==> log == old(log) + [Outside] && (Quiet() ==> tree == old(tree))
      ensures step == Done ==> exists id: nat, was: Option<Node> ::
        (was.Some? ==> was.value.File?) && log == old(log) + [Outside] + [Did(Wrote(p, content, id, was))]
      ensures step == Failed ==> Blocked(tree, p) || (p in tree && tree[p].Dir?)
      ensures step == Done && Quiet() ==> WriteAt(old(tree), p, content, tree)
      ensures Quiet() && !Blocked(old(tree), p) && (p in old(tree) ==> old(tree)[p].File?) ==>
        step == Done || step == Died
    {
      hide Replay; hide Truthful;
      Tick();
      var blocked := IsBlocked(p);
      if blocked || (p in tree && tree[p].Dir?) { return Failed; }
      var alive := Burn();
      if !alive { return Died; }
      ParentsMade(tree, p, content, nextId);
      Perform(Wrote(p, content, nextId, if p in tree then Some(tree[p]) else None));
      nextId := nextId + 1;
      return Done;
    }

    // -------------------------------------------------------------------------------------------
    // Preflight

    method Sorted(paths: set<Path>) returns (s: seq<Path>)
      requires Injective(order)
      ensures Lists(order, s, paths)
    {
      s := [];
      var rest := paths;
      while rest != {}
        invariant rest <= paths && Lists(order, s, paths - rest)
        invariant forall x, y :: x in s && y in rest ==> order(x) < order(y)
      {
        var least :| least in rest;
        var others := rest - {least};
        while others != {}
          invariant others <= rest && least in rest
          invariant forall y :: y in rest && y !in others ==> order(least) <= order(y)
        {
          var y :| y in others;
          if order(y) < order(least) { least := y; }
          others := others - {y};
        }
        s := s + [least];
        rest := rest - {least};
      }
    }

    /** The directories of the previous layout that stand where a desired file goes, or below. */
    method PruneSet(j: Job, orphans: seq<Path>) returns (prune: set<Path>)
      requires j.Valid() && forall o :: o in orphans <==> o in j.Orphans()
      ensures forall a :: a in prune <==> InPrune(j, a)
    {
      prune := {};
      for k := 0 to |orphans|
        invariant forall a :: a in prune <==> PruneOf(j, a) && AboveSome(a, orphans[..k])
      {
        var o := orphans[k];
        assert orphans[..k + 1] == orphans[..k] + [o];
        assert o in j.Orphans();
        ghost var before := prune;
        for i := 1 to |o|
          invariant forall a :: a in prune <==> a in before || (PruneOf(j, a) && Above(a, o) && |a| < i)
        {
          var a := o[..i];
          assert forall b :: Above(b, o) && |b| == i <==> b == a;
          if exists d :: d in j.desired && (d == a || Above(d, a)) {
            prune := prune + {a};
          }
        }
      }
      assert orphans[..|orphans|] == orphans;
      forall a ensures a in prune <==> InPrune(j, a) {
        if InPrune(j, a) {
          var o :| o in j.Orphans() && Above(a, o);
          assert o in orphans;
        }
      }
    }

    /** Decides which orphans still stand and which are this run's to delete. */
    method CheckOrphans(j: Job, orphans: seq<Path>) returns (ok: bool, files: set<Path>, owned: set<Path>)
      requires Valid() && j.Valid() && forall o :: o in orphans <==> o in j.Orphans()
      modifies this`tree, this`clock, this`log
      ensures Valid() && (Quiet() ==> tree == old(tree)) && Watched(old(log), log)
      ensures owned <= j.Orphans()
      ensures !ok ==> OnceSo(|old(log)|, InTheWay(j))
      ensures forall o :: o in files ==> OnceSo(|old(log)|, Occupied(o))
      ensures forall o :: o in owned ==> OnceSo(|old(log)|, Own(j, o))
      ensures ok ==> forall o :: o in j.Orphans() && o !in owned ==> OnceSo(|old(log)|, NotOwn(j, o))
      ensures Quiet() ==> (ok <==> forall o :: o in j.Orphans() ==> OrphanPasses(tree, j, o))
      ensures Quiet() && ok ==> files == Standing(tree, j) && owned == OwnedIn(tree, j)
    {
      hide Replay; hide Truthful; hide Once;
      ghost var t, from := tree, |log|;
      files, owned := {}, {};
      for k := 0 to |orphans|
        invariant Valid() && (Quiet() ==> tree == t) && owned <= j.Orphans() && Watched(old(log), log)
        invariant forall o :: o in files ==> OnceSo(from, Occupied(o))
        invariant forall o :: o in owned ==> OnceSo(from, Own(j, o))
        invariant forall m :: 0 <= m < k && orphans[m] !in owned ==> OnceSo(from, NotOwn(j, orphans[m]))
        invariant Quiet() ==> forall m :: 0 <= m < k ==> OrphanPasses(t, j, orphans[m])
        invariant Quiet() ==> forall o :: o in files <==> o in orphans[..k] && o in t && t[o].File?
        invariant Quiet() ==> forall o :: o in owned <==> o in orphans[..k] && Owned(t, j, o)
      {
        var o := orphans[k];
        assert orphans[..k + 1] == orphans[..k] + [o];
        assert o in j.Orphans();
        ghost var before := log;
        var look := CheckOrphan(j, o, from);
        OnceStill(env, begin, from, before, from, log);
        match look {
          case Refuses => return false, files, owned;
          case Free =>
          case Foreign => files := files + {o};
          case Mine => files, owned := files + {o}, owned + {o};
        }
      }
      assert orphans[..|orphans|] == orphans;
      return true, files, owned;
    }

    /** Looks at one orphan: it is not there, or a file with other bytes, or one with those recorded. */
    method CheckOrphan(j: Job, o: Path, ghost from: nat) returns (look: Look)
      requires Valid() && j.Valid() && o in j.Orphans() && from <= |log|
      modifies this`tree, this`clock, this`log
      ensures Valid() && (Quiet() ==> tree == old(tree)) && Watched(old(log), log)
      ensures look == Refuses ==> OnceSo(from, InTheWay(j))
      ensures look == Foreign || look == Mine ==> OnceSo(from, Occupied(o))
      ensures look == Foreign || look == Free ==> OnceSo(from, NotOwn(j, o))
      ensures look == Mine ==> OnceSo(from, Own(j, o))
      ensures Quiet() ==> (look == Refuses <==> !OrphanPasses(tree, j, o))
      ensures Quiet() && look != Refuses ==>
        (look == Mine <==> Owned(tree, j, o)) && (look != Free <==> o in tree && tree[o].File?)
    {
      hide Replay; hide Truthful; hide Once;
      var unreachable := OrphanCannotExist(o);
      if unreachable {
        OnceNow(env, begin, from, log, NotOwn(j, o));
        return Free;
      }
      var safe, node := SafeTarget(o);
      if !safe {
        OnceNow(env, begin, from, log, InTheWay(j));
        return Refuses;
      }
      if node.Some? && node.value.Dir? {
        OnceNow(env, begin, from, log, InTheWay(j));
        if exists d :: d in j.desired && Above(o, d) {
          ghost var before := log;
          var released := HoldsOnlyDesiredFiles(o, j);
          OnceStill(env, begin, from, before, from, log);
          if released {
            OnceNow(env, begin, from, log, NotOwn(j, o));
            return Free;
          }
        }
        return Refuses;
      }
      if node.None? {
        OnceNow(env, begin, from, log, NotOwn(j, o));
        return Free;
      }
      OnceNow(env, begin, from, log, Occupied(o));
      ghost var before := log;
      var readable, read := ReadFile(o);
      OnceStill(env, begin, from, before, from, log);
      if !readable {
        OnceNow(env, begin, from, log, InTheWay(j));
        return Refuses;
      }
      if read.Some? && read.value.content == j.ledger[o] {
        OnceNow(env, begin, from, log, Own(j, o));
        return Mine;
      }
      OnceNow(env, begin, from, log, NotOwn(j, o));
      return Foreign;
    }

    /** Checks every desired path; `present` are those a regular file stands at. */
    method CheckDesired(j: Job, wanted: seq<Path>, files: set<Path>, owned: set<Path>, prune: set<Path>,
        ghost from: nat)
      returns (ok: bool, present: set<Path>)
      requires Valid() && j.Valid() && (forall d :: d in wanted <==> d in j.desired) && from <= |log|
      requires Quiet() ==> files == Standing(tree, j) && owned == OwnedIn(tree, j)
      requires forall a :: a in prune <==> InPrune(j, a)
      requires forall o :: o in files ==> OnceSo(from, Occupied(o))
      modifies this`tree, this`clock, this`log
      ensures Valid() && (Quiet() ==> tree == old(tree)) && Watched(old(log), log)
      ensures !ok ==> OnceSo(from, InTheWay(j))
      ensures ok ==> forall d :: d in j.desired && d !in present ==> OnceSo(from, Vacant(d))
      ensures Quiet() ==> (ok <==> forall d :: d in j.desired ==> DesiredPasses(tree, j, d))
      ensures Quiet() && ok ==> present == set d | d in j.desired && d in tree && tree[d].File?
    {
      hide Replay; hide Truthful; hide Once; hide InPrune;
      ghost var t := tree;
      present := {};
      for k := 0 to |wanted|
        invariant Valid() && (Quiet() ==> tree == t) && Watched(old(log), log)
        invariant forall o :: o in files ==> OnceSo(from, Occupied(o))
        invariant forall m :: 0 <= m < k && wanted[m] !in present ==> OnceSo(from, Vacant(wanted[m]))
        invariant Quiet() ==> forall m :: 0 <= m < k ==> DesiredPasses(t, j, wanted[m])
        invariant Quiet() ==> forall d :: d in present <==> d in wanted[..k] && d in t && t[d].File?
      {
        var d := wanted[k];
        assert wanted[..k + 1] == wanted[..k] + [d];
        assert d in j.desired;
        ghost var before := log;
        var ok', stands := CheckOneDesired(j, d, files, owned, prune, from);
        OnceStill(env, begin, from, before, from, log);
        if !ok' { return false, present; }
        if stands { present := present + {d}; }
      }
      assert wanted[..|wanted|] == wanted;
      return true, present;
    }

    /** Checks one desired path: is a regular file there? */
    method CheckOneDesired(j: Job, d: Path, files: set<Path>, owned: set<Path>, prune: set<Path>, ghost from: nat)
      returns (ok: bool, stands: bool)
      requires Valid() && j.Valid() && d in j.desired && from <= |log|
      requires Quiet() ==> files == Standing(tree, j) && owned == OwnedIn(tree, j)
      requires forall a :: a in prune <==> InPrune(j, a)
      requires forall o :: o in files ==> OnceSo(from, Occupied(o))
      modifies this`tree, this`clock, this`log
      ensures Valid() && (Quiet() ==> tree == old(tree)) && Watched(old(log), log)
      ensures !ok ==> OnceSo(from, InTheWay(j))
      ensures ok && !stands ==> OnceSo(from, Vacant(d))
      ensures Quiet() ==> (ok <==> DesiredPasses(tree, j, d)) && (ok ==> (stands <==> d in tree && tree[d].File?))
    {
      hide Replay; hide Truthful; hide Once; hide InPrune;
      if exists a :: a in files && Above(a, d) {
        ghost var a :| a in files && Above(a, d);
        OnceInTheWay(env, begin, from, log, j, a, d);
        OnceVacant(env, begin, from, log, a, d);
        if exists a :: a in files && Above(a, d) && a !in owned { return false, false; }
        if Quiet() { FreedByDeletion(tree, j, files, owned, d); }
        return true, false;
      }
      ghost var before := log;
      var safe, node := SafeTarget(d);
      OnceStill(env, begin, from, before, from, log);
      if !safe || (node.Some? && node.value.Dir?) { OnceNow(env, begin, from, log, InTheWay(j)); }
      if !safe { return false, false; }
      if node.Some? && node.value.Dir? && d !in prune { return false, false; }
      stands := node.Some? && node.value.File?;
      if !stands { OnceNow(env, begin, from, log, Vacant(d)); }
      return true, stands;
    }

    /** Checks that every directory to prune holds nothing else. */
    method CheckPrunes(j: Job, prunes: seq<Path>, owned: set<Path>, prune: set<Path>) returns (ok: bool)
      requires Valid() && j.Valid() && forall a :: a in prunes <==> a in prune
      requires forall a :: a in prune <==> InPrune(j, a)
      requires Quiet() ==> owned == OwnedIn(tree, j)
      modifies this`tree, this`clock, this`log
      ensures Valid() && (Quiet() ==> tree == old(tree)) && Watched(old(log), log)
      ensures !ok ==> OnceSo(|old(log)|, InTheWay(j))
      ensures Quiet() ==> (ok <==> forall a :: InPrune(j, a) ==> PrunePasses(tree, j, a))
    {
      hide Replay; hide Truthful; hide Once; hide InPrune;
      ghost var t, from := tree, |log|;
      for k := 0 to |prunes|
        invariant Valid() && (Quiet() ==> tree == t) && Watched(old(log), log)
        invariant Quiet() ==> forall m :: 0 <= m < k ==> PrunePasses(t, j, prunes[m])
      {
        var a := prunes[k];
        assert a in prune;
        PrunedIsNamed(j, a);
        var safe, node := SafeTarget(a);
        if !safe {
          OnceNow(env, begin, from, log, InTheWay(j));
          return false;
        }
        if node.None? || !node.value.Dir? { continue; }
        var entry := UnprunableEntry(a, owned, prune);
        if entry.Some? {
          OnceNow(env, begin, from, log, InTheWay(j));
          return false;
        }
      }
      return true;
    }

    /** Sorts the desired outputs by what is to be done about them. */
    method ClassifyOutputs(j: Job, wanted: seq<Path>, present: set<Path>, ghost from: nat)
      returns (ok: bool, report: Report, writes: seq<Path>, ghost classes: map<Path, Class>)
      requires Valid() && j.Valid() && Lists(order, wanted, j.desired.Keys) && from <= |log|
      requires forall d :: d in j.desired && d !in present ==> OnceSo(from, Vacant(d))
      requires Quiet() ==> present == set d | d in j.desired && d in tree && tree[d].File?
      modifies this`tree, this`clock, this`log
      ensures Valid() && (Quiet() ==> tree == old(tree)) && Watched(old(log), log)
      ensures forall d :: d in writes ==> d in j.desired
      ensures Quiet() ==> ok
      ensures !ok ==> OnceSo(from, InTheWay(j))
      ensures ok ==> Sorts(order, report, classes) && Seen(env, begin, from, log, j, classes)
      ensures report.deleted == []
      ensures ok ==> Lists(order, writes, j.desired.Keys - OfClass(classes, Unchanged))
    {
      hide Replay; hide Truthful; hide Classify; hide Sublist; hide Once;
      var created, updated, repaired, same := [], [], [], [];
      writes, classes := [], map[];
      report := Report([], [], [], [], []);
      NothingListed(order);
      for k := 0 to |wanted|
        invariant Valid() && (Quiet() ==> tree == old(tree)) && Watched(old(log), log)
        invariant classes.Keys == Elements(wanted[..k]) && forall d :: d in writes ==> d in j.desired
        invariant Sorting(order, wanted[..k], classes, created, updated, repaired, same, writes)
        invariant forall d :: d in classes ==> OnceSo(from, Fitting(j, classes[d], d))
        invariant forall d :: d in j.desired && d !in present ==> OnceSo(from, Vacant(d))
      {
        var d := wanted[k];
        assert wanted[..k + 1] == wanted[..k] + [d];
        assert d in j.desired;
        ghost var before := log;
        var readable, class_ := ClassifyOne(j, d, present, from);
        OnceStill(env, begin, from, before, from, log);
        if !readable { return false, report, writes, classes; }
        OneMoreListed(order, wanted, k, classes, created, updated, repaired, same, writes, class_);
        classes := classes[d := class_];
        match class_ {
          case Unchanged => same := same + [d];
          case Created => created := created + [d];
          case Updated => updated := updated + [d];
          case Repaired => repaired := repaired + [d];
        }
        if !class_.Unchanged? { writes := writes + [d]; }
      }
      assert wanted[..|wanted|] == wanted && Elements(wanted) == j.desired.Keys;
      report := Report(created, updated, repaired, [], same);
      AllSorted(order, wanted, classes, created, updated, repaired, same, writes);
      return true, report, writes, classes;
    }

    /** Compares one output with what stands at its path. */
    method ClassifyOne(j: Job, d: Path, present: set<Path>, ghost from: nat) returns (ok: bool, class_: Class)
      requires Valid() && d in j.desired && d != [] && from <= |log|
      requires d !in present ==> OnceSo(from, Vacant(d))
      requires Quiet() && d in present ==> d in tree && tree[d].File?
      modifies this`tree, this`clock, this`log
      ensures Valid() && (Quiet() ==> tree == old(tree) && ok) && Watched(old(log), log)
      ensures !ok ==> OnceSo(from, InTheWay(j))
      ensures ok ==> OnceSo(from, Fitting(j, class_, d))
    {
      hide Replay; hide Truthful; hide Once;
      var current: Option<Bytes> := None;
      if d in present {
        assert Quiet() ==> !Blocked(tree, d);
        var readable, read := ReadFile(d);
        if !readable {
          OnceNow(env, begin, from, log, InTheWay(j));
          return false, Unchanged;
        }
        if read.Some? { current := Some(read.value.content); }
        class_ := Classify(j, d, current);
        ClassFits(tree, j, d, class_);
        OnceNow(env, begin, from, log, Fitting(j, class_, d));
      } else {
        class_ := Classify(j, d, current);
        OnceAbsent(env, begin, from, log, j, d);
      }
      return true, class_;
    }

    // -------------------------------------------------------------------------------------------
    // Mutating phases

    /** Deletes the orphans preflight found to be owned, reading each once more first. */
    method DeleteOrphans(j: Job, deletions: seq<Path>) returns (step: Step, performed: seq<Path>)
      requires Valid() && j.Valid() && forall o :: o in deletions ==> o in j.Orphans()
      requires Quiet() ==> Lists(order, deletions, OwnedIn(tree, j))
      modifies this`tree, this`clock, this`fuse, this`log
      ensures Valid() && AllowedSince(j, old(log), log) && step != Skipped
      ensures (fuse.None? <==> old(fuse).None?) && (step == Died ==> fuse == Some(0))
      ensures Deletions(log) == Deletions(old(log)) + performed && Writings(log) == Writings(old(log))
      ensures step == Done ==> forall o :: o in deletions ==> Released(env, begin, |old(log)|, log, j, o)
      ensures step == Failed ==> OnceSo(|old(log)|, InTheWay(j))
      ensures Quiet() ==>
        step != Failed && (step == Done ==> performed == deletions && tree == old(tree) - OwnedIn(old(tree), j))
      ensures Quiet() && step == Died ==> exists gone :: StoppedAt(old(tree), j, Deleting(gone), tree)
    {
      hide Replay; hide Truthful; hide Once; hide Released; hide Deletions; hide Writings;
      ghost var t, from := tree, |log|;
      performed := [];
      for k := 0 to |deletions|
        invariant Valid() && AllowedSince(j, old(log), log) && (fuse.None? <==> old(fuse).None?)
        invariant Deletions(log) == Deletions(old(log)) + performed && Writings(log) == Writings(old(log))
        invariant forall m :: 0 <= m < k ==> Released(env, begin, from, log, j, deletions[m])
        invariant Quiet() ==> performed == deletions[..k] && tree == t - Elements(deletions[..k])
      {
        var o := deletions[k];
        assert o in deletions && o in j.Orphans();
        assert deletions[..k + 1] == deletions[..k] + [o];
        if Quiet() { NotYet(order, deletions, k, OwnedIn(t, j)); OwnedReachable(t, j, Elements(deletions[..k]), o); }
        ghost var before := log;
        var done := DeleteOrphan(j, o, from);
        ReleasedStill(env, begin, from, before, log, j);
        match done {
          case Died =>
            if Quiet() { StoppedDeleting(t, j, Elements(deletions[..k]), tree); }
            return Died, performed;
          case Failed => return Failed, performed;
          case Skipped =>
          case Done =>
            performed := performed + [o];
        }
      }
      assert deletions[..|deletions|] == deletions;
      assert Quiet() ==> Elements(deletions) == OwnedIn(t, j);
      return Done, performed;
    }

    /** Deletes one orphan, if it still carries the recorded bytes and stays the file that was read. */
    method DeleteOrphan(j: Job, o: Path, ghost from: nat) returns (done: Step)
      requires Valid() && j.Valid() && o in j.Orphans() && from <= |log|
      modifies this`tree, this`clock, this`fuse, this`log
      ensures Valid() && AllowedSince(j, old(log), log)
      ensures (fuse.None? <==> old(fuse).None?) && (done == Died ==> fuse == Some(0))
      ensures Deletions(log) == Deletions(old(log)) + (if done == Done then [o] else [])
      ensures Writings(log) == Writings(old(log))
      ensures done == Done || done == Skipped ==> Released(env, begin, from, log, j, o)
      ensures done == Failed ==> OnceSo(from, InTheWay(j))
      ensures Quiet() && Owned(old(tree), j, o) && !Blocked(old(tree), o) ==>
        (done == Done && tree == old(tree) - {o}) || (done == Died && tree == old(tree))
    {
      hide Replay; hide Truthful; hide Once; hide Deletions; hide Writings; hide Happen;
      OneEventMore(log, Outside);
      OneEventMore(log + [Outside], Outside);
      OneEventMore(log + [Outside] + [Outside], Outside);
      var safe, node := SafeTarget(o);
      if !safe {
        OnceNow(env, begin, from, log, InTheWay(j));
        return Failed;
      }
      if node.None? {
        OnceNow(env, begin, from, log, NotOwn(j, o));
        return Skipped;
      }
      if node.value.Dir? {
        OnceNow(env, begin, from, log, InTheWay(j));
        return Failed;
      }
      var readable, read := ReadFile(o);
      if !readable {
        OnceNow(env, begin, from, log, InTheWay(j));
        return Failed;
      }
      if read.None? || read.value.content != j.ledger[o] {
        OnceNow(env, begin, from, log, NotOwn(j, o));
        return Skipped;
      }
      OnceNow(env, begin, from, log, Stands(o, read.value));
      done := UnlinkOrphan(j, o, read.value, from);
    }

    /** Unlinks the orphan that was read. */
    method UnlinkOrphan(j: Job, o: Path, read: Node, ghost from: nat) returns (done: Step)
      requires Valid() && o in j.Orphans() && o != [] && from <= |log|
      requires o in tree && tree[o] == read && read.File? && read.content == j.ledger[o]
      requires OnceSo(from, Stands(o, read))
      modifies this`tree, this`clock, this`fuse, this`log
      ensures Valid() && AllowedSince(j, old(log), log)
      ensures (fuse.None? <==> old(fuse).None?) && (done == Died ==> fuse == Some(0))
      ensures Deletions(log) == Deletions(old(log)) + (if done == Done then [o] else [])
      ensures Writings(log) == Writings(old(log))
      ensures done == Done || done == Skipped ==> Released(env, begin, from, log, j, o)
      ensures done == Failed ==> OnceSo(from, InTheWay(j))
      ensures Quiet() ==> (done == Done && tree == old(tree) - {o}) || (done == Died && tree == old(tree))
    {
      hide Replay; hide Truthful; hide Once; hide Deletions; hide Writings; hide Happen; hide WellFormed;
      ghost var before := log;
      OneEventMore(log, Outside);
      done := Unlink(o, read.id, read);
      OnceStill(env, begin, from, before, from, log);
      match done {
        case Died =>
        case Failed => OnceNow(env, begin, from, log, InTheWay(j));
        case Skipped =>
          if o in tree {
            OnceNow(env, begin, from, log, Stands(o, tree[o]));
          } else {
            OnceNow(env, begin, from, log, NotOwn(j, o));
          }
        case Done =>
          ghost var gone: Node :| gone.File? && gone.id == read.id &&
            log == before + [Outside] + [Did(Deleted(o, read, gone))];
          OneEventMore(before + [Outside], Did(Deleted(o, read, gone)));
          assert log[|before| + 1] == Did(Deleted(o, read, gone));
      }
    }

    method ByDepth(paths: set<Path>) returns (s: seq<Path>)
      ensures DeepestFirst(s) && Elements(s) == paths
    {
      s := [];
      var rest := paths;
      while rest != {}
        invariant rest <= paths && DeepestFirst(s) && Elements(s) == paths - rest
        invariant forall x, y :: x in s && y in rest ==> |x| >= |y|
      {
        var deepest :| deepest in rest;
        var others := rest - {deepest};
        while others != {}
          invariant others <= rest && deepest in rest
          invariant forall y :: y in rest && y !in others ==> |deepest| >= |y|
        {
          var y :| y in others;
          if |y| > |deepest| { deepest := y; }
          others := others - {y};
        }
        assert Elements(s + [deepest]) == Elements(s) + {deepest};
        s := s + [deepest];
        rest := rest - {deepest};
      }
    }

    /** Removes the emptied directories of the previous layout, deepest first. */
    method PruneDirectories(j: Job, prunes: seq<Path>, ghost t: Tree) returns (step: Step)
      requires Valid() && j.Valid() && DeepestFirst(prunes) && forall a :: a in prunes <==> InPrune(j, a)
      requires Quiet() ==> WellFormed(t) && Passes(t, j) && tree == PrunedTree(t, j, {})
      modifies this`tree, this`clock, this`fuse, this`log
      ensures Valid() && AllowedSince(j, old(log), log) && step != Skipped
      ensures (fuse.None? <==> old(fuse).None?) && (step == Died ==> fuse == Some(0))
      ensures Deletions(log) == Deletions(old(log)) && Writings(log) == Writings(old(log))
      ensures step == Done ==> forall a :: a in prunes ==> Emptied(env, begin, |old(log)|, log, a)
      ensures step == Failed ==> OnceSo(|old(log)|, InTheWay(j))
      ensures Quiet() ==> step != Failed && (step == Done ==> tree == Cleared(t, j))
      ensures Quiet() && step == Died ==> exists gone :: StoppedAt(t, j, Pruning(gone), tree)
    {
      hide Replay; hide Truthful; hide Passes; hide PrunedTree; hide DeepestFirst; hide WellFormed;
      hide StoppedAt; hide Cleared; hide Blocked; hide Once; hide Emptied; hide Deletions; hide Writings;
      hide InPrune;
      assert Elements(prunes[..0]) == {};
      ghost var from := |log|;
      for k := 0 to |prunes|
        invariant Valid() && AllowedSince(j, old(log), log) && (fuse.None? <==> old(fuse).None?)
        invariant Deletions(log) == Deletions(old(log)) && Writings(log) == Writings(old(log))
        invariant forall m :: 0 <= m < k ==> Emptied(env, begin, from, log, prunes[m])
        invariant Quiet() ==> tree == PrunedTree(t, j, Elements(prunes[..k]))
      {
        var a := prunes[k];
        assert a in prunes;
        assert prunes[..k + 1] == prunes[..k] + [a];
        assert Elements(prunes[..k + 1]) == Elements(prunes[..k]) + {a};
        if Quiet() {
          ReadyToPrune(t, j, prunes, k);
          PruneOne(t, j, Elements(prunes[..k]), a);
        }
        PrunedIsNamed(j, a);
        ghost var before := log;
        var done := Prune(j, a, from);
        EmptiedStill(env, begin, from, before, log);
        match done {
          case Died =>
            if Quiet() { StoppedPruning(t, j, Elements(prunes[..k]), tree); }
            return Died;
          case Failed => return Failed;
          case Skipped =>
          case Done =>
        }
      }
      assert prunes[..|prunes|] == prunes;
      if Quiet() { AllPruned(t, j, prunes); }
      return Done;
    }

    /** Removes one directory of the previous layout, if one stands there. */
    method Prune(j: Job, a: Path, ghost from: nat) returns (done: Step)
      requires Valid() && InPrune(j, a) && a != [] && from <= |log|
      modifies this`tree, this`clock, this`fuse, this`log
      ensures Valid() && AllowedSince(j, old(log), log)
      ensures (fuse.None? <==> old(fuse).None?) && (done == Died ==> fuse == Some(0))
      ensures Deletions(log) == Deletions(old(log)) && Writings(log) == Writings(old(log))
      ensures done == Done || done == Skipped ==> Emptied(env, begin, from, log, a)
      ensures done == Failed ==> OnceSo(from, InTheWay(j))
      ensures Quiet() && !Blocked(old(tree), a) ==>
        if a in old(tree) && old(tree)[a].Dir? then
          (forall e :: e in old(tree) ==> !ChildOf(e, a)) ==>
            (done == Done && tree == old(tree) - {a}) || (done == Died && tree == old(tree))
        else done == Skipped && tree == old(tree)
    {
      hide Replay; hide Truthful; hide Once; hide Deletions; hide Writings; hide Happen; hide WellFormed; hide InPrune;
      OneEventMore(log, Outside);
      OneEventMore(log + [Outside], Outside);
      var safe, node := SafeTarget(a);
      if !safe {
        OnceNow(env, begin, from, log, InTheWay(j));
        return Failed;
      }
      if node.None? || !node.value.Dir? {
        OnceNow(env, begin, from, log, NoDirectory(a));
        return Skipped;
      }
      ghost var before := log;
      done := RemoveEmptyDirectory(a);
      match done {
        case Died =>
        case Failed => OnceNow(env, begin, from, log, InTheWay(j));
        case Skipped => OnceNow(env, begin, from, log, NoDirectory(a));
        case Done =>
          OneEventMore(before + [Outside], Did(RemovedDir(a)));
          assert log[|before| + 1] == Did(RemovedDir(a));
      }
    }

    /** Writes the outputs that differ. */
    method WriteOutputs(j: Job, writes: seq<Path>, ghost t: Tree) returns (step: Step)
      requires Valid() && j.Valid() && forall d :: d in writes ==> d in j.desired
      requires Quiet() ==> WellFormed(t) && Passes(t, j) && tree == Cleared(t, j)
      modifies this`tree, this`clock, this`fuse, this`log, this`nextId
      ensures Valid() && AllowedSince(j, old(log), log) && step != Skipped
      ensures (fuse.None? <==> old(fuse).None?) && (step == Died ==> fuse == Some(0))
      ensures Deletions(log) == Deletions(old(log))
      ensures step == Done ==> Writings(log) == Writings(old(log)) + writes
      ensures step == Done ==> forall d :: d in writes ==> DidWrite(log, |old(log)|, d, j.desired[d])
      ensures step == Failed ==> OnceSo(|old(log)|, InTheWay(j))
      ensures Quiet() ==> step != Failed && (step == Done ==> WithOutputs(Cleared(t, j), j, Elements(writes), tree))
      ensures Quiet() && step == Died ==> exists written :: StoppedAt(t, j, Writing(written), tree)
    {
      hide Replay; hide Truthful; hide Passes; hide WellFormed; hide WithOutputs; hide Blocked; hide Cleared;
      hide WriteAt; hide Once; hide Deletions; hide Writings; hide DidWrite;
      assert Elements(writes[..0]) == {};
      ghost var from := |log|;
      if Quiet() { NothingWritten(t, j); }
      for k := 0 to |writes|
        invariant Valid() && AllowedSince(j, old(log), log) && (fuse.None? <==> old(fuse).None?)
        invariant Deletions(log) == Deletions(old(log)) && Writings(log) == Writings(old(log)) + writes[..k]
        invariant forall m :: 0 <= m < k ==> DidWrite(log, from, writes[m], j.desired[writes[m]])
        invariant Quiet() ==> WithOutputs(Cleared(t, j), j, Elements(writes[..k]), tree)
      {
        var d := writes[k];
        assert d in writes;
        assert writes[..k + 1] == writes[..k] + [d];
        assert Elements(writes[..k + 1]) == Elements(writes[..k]) + {d};
        if Quiet() { ReadyToWrite(t, j, Elements(writes[..k]), tree, d); }
        ghost var before, logged := tree, log;
        var done := WriteOutput(j, d, from);
        DidStill(from, logged, from, log);
        match done {
          case Died =>
            if Quiet() { assert StoppedAt(t, j, Writing(Elements(writes[..k])), tree); }
            return Died;
          case Failed => return Failed;
          case Done =>
            if Quiet() { OneMoreWritten(t, j, Elements(writes[..k]), before, d, tree); }
        }
      }
      assert writes[..|writes|] == writes;
      return Done;
    }

    /** Writes one output. */
    method WriteOutput(j: Job, d: Path, ghost from: nat) returns (done: Step)
      requires Valid() && d in j.desired && d != [] && from <= |log|
      modifies this`tree, this`clock, this`fuse, this`log, this`nextId
      ensures Valid() && AllowedSince(j, old(log), log) && done != Skipped
      ensures (fuse.None? <==> old(fuse).None?) && (done == Died ==> fuse == Some(0))
      ensures Deletions(log) == Deletions(old(log))
      ensures Writings(log) == Writings(old(log)) + if done == Done then [d] else []
      ensures done == Done ==> DidWrite(log, from, d, j.desired[d])
      ensures done == Failed ==> OnceSo(from, InTheWay(j))
      ensures Quiet() && !Blocked(old(tree), d) && !(d in old(tree) && old(tree)[d].Dir?) ==>
        (done == Done && WriteAt(old(tree), d, j.desired[d], tree)) || (done == Died && tree == old(tree))
    {
      hide Replay; hide Truthful; hide Once; hide Deletions; hide Writings; hide Happen; hide WellFormed; hide WriteAt;
      OneEventMore(log, Outside);
      OneEventMore(log + [Outside], Outside);
      var safe, node := SafeTarget(d);
      if !safe || (node.Some? && node.value.Dir?) { OnceNow(env, begin, from, log, InTheWay(j)); }
      if !safe { return Failed; }
      if node.Some? && node.value.Dir? { return Failed; }
      ghost var before := log;
      done := AtomicWrite(d, j.desired[d]);
      if done == Failed { OnceNow(env, begin, from, log, InTheWay(j)); }
      if done == Done {
        ghost var id: nat, was: Option<Node> :| (was.Some? ==> was.value.File?) &&
          log == before + [Outside] + [Did(Wrote(d, j.desired[d], id, was))];
        OneEventMore(before + [Outside], Did(Wrote(d, j.desired[d], id, was)));
        assert IsWrite(log[|before| + 1], d, j.desired[d]);
      }
    }

    function Recorded(): map<Path, Bytes>
      reads this`ledger
    {
      if ledger.Some? then ledger.value else map[]
    }

    /** Records what is owned now, unless the ledger already says so. */
    method Publish(desired: map<Path, Bytes>) returns (step: Step)
      modifies this`ledger, this`fuse
      ensures (fuse.None? <==> old(fuse).None?) && (step == Died ==> fuse == Some(0))
      ensures step == Done || step == Died
      ensures step == Died ==> ledger == old(ledger)
      ensures step == Done ==> Recorded() == desired && (desired != map[] ==> ledger.Some?)
    {
      if desired != Recorded() || (desired != map[] && ledger.None?) {
        var alive := Burn();
        if !alive { return Died; }
        ledger := Some(desired);
      }
      return Done;
    }

    // -------------------------------------------------------------------------------------------
    // The whole run

    /** Every check that can refuse the run. */
    method CheckAll(j: Job) returns (ok: bool, owned: set<Path>, present: set<Path>, prune: set<Path>)
      requires Valid() && j.Valid()
      modifies this`tree, this`clock, this`log
      ensures Valid() && (Quiet() ==> tree == old(tree)) && Watched(old(log), log)
      ensures owned <= j.Orphans() && forall a :: a in prune <==> InPrune(j, a)
      ensures !ok ==> OnceSo(|old(log)|, InTheWay(j))
      ensures ok ==> forall o :: o in j.Orphans() ==> OnceSo(|old(log)|, if o in owned then Own(j, o) else NotOwn(j, o))
      ensures ok ==> forall d :: d in j.desired && d !in present ==> OnceSo(|old(log)|, Vacant(d))
      ensures Quiet() ==> (ok <==> Passes(tree, j))
      ensures Quiet() && ok ==>
        owned == OwnedIn(tree, j) && present == set d | d in j.desired && d in tree && tree[d].File?
    {
      hide Replay; hide Truthful; hide OrphanPasses; hide DesiredPasses; hide PrunePasses; hide InPrune;
      hide Owned; hide WellFormed; hide Once;
      ghost var from := |log|;
      var orphans := Sorted(j.Orphans());
      prune := PruneSet(j, orphans);
      present := {};
      var files;
      ok, files, owned := CheckOrphans(j, orphans);
      if !ok { return; }
      ghost var before := log;
      var wanted := Sorted(j.desired.Keys);
      ok, present := CheckDesired(j, wanted, files, owned, prune, from);
      OnceStill(env, begin, from, before, from, log);
      if !ok { return; }
      before := log;
      var prunes := Sorted(prune);
      ok := CheckPrunes(j, prunes, owned, prune);
      OnceStill(env, begin, from, before, from, log);
      OnceStill(env, begin, |before|, log, from, log);
    }

    /** Everything decided before the first mutation. */
    method Preflight(j: Job)
      returns (ok: bool, report: Report, writes: seq<Path>, prunes: seq<Path>, ghost classes: map<Path, Class>)
      requires Valid() && j.Valid()
      modifies this`tree, this`clock, this`log
      ensures Valid() && (Quiet() ==> tree == old(tree)) && Watched(old(log), log)
      ensures forall d :: d in writes ==> d in j.desired
      ensures forall o :: o in report.deleted ==> o in j.Orphans()
      ensures DeepestFirst(prunes) && forall a :: a in prunes <==> InPrune(j, a)
      ensures !ok ==> OnceSo(|old(log)|, InTheWay(j))
      ensures ok ==> Sorts(order, report, classes) && Seen(env, begin, |old(log)|, log, j, classes)
      ensures ok ==> Lists(order, writes, j.desired.Keys - OfClass(classes, Unchanged))
      ensures ok ==> Lists(order, report.deleted, Elements(report.deleted))
      ensures ok ==> forall o :: o in j.Orphans() ==>
        OnceSo(|old(log)|, if o in report.deleted then Own(j, o) else NotOwn(j, o))
      ensures Quiet() ==> (ok <==> Passes(tree, j))
      ensures Quiet() && ok ==> Reports(order, tree, j, report)
      ensures Quiet() && ok ==> forall d :: d in writes <==> d in j.desired && d !in InClass(tree, j, Unchanged)
    {
      hide Replay; hide Truthful; hide Passes; hide InPrune; hide WellFormed; hide Classify; hide DeepestFirst;
      hide InClass; hide OwnedIn; hide Once; hide Sorts; hide Seen; hide OfClass;
      ghost var from, before := |log|, log;
      report, writes, classes := Report([], [], [], [], []), [], map[];
      var owned, present, prune;
      ok, owned, present, prune := CheckAll(j);
      prunes := ByDepth(prune);
      assert forall a :: a in prunes <==> a in Elements(prunes);
      if !ok { return; }
      ghost var middle := log;
      var wanted := Sorted(j.desired.Keys);
      ok, report, writes, classes := ClassifyOutputs(j, wanted, present, from);
      OnceStill(env, begin, from, middle, from, log);
      if !ok { return; }
      var deletions := Sorted(owned);
      assert Elements(deletions) == owned;
      WithDeletions(order, report, classes, deletions);
      report := report.(deleted := deletions);
      if Quiet() {
        QuietClasses(env, begin, before, log, order, tree, j, classes, report);
        assert Replay(env, begin, before).tree == tree;
      }
    }

    /** The mutations a preflight that passed leads to. */
    method CarryOut(j: Job, report: Report, writes: seq<Path>, prunes: seq<Path>, ghost from: nat, ghost t: Tree)
      returns (step: Step, performed: seq<Path>)
      requires Valid() && j.Valid() && from <= |log|
      requires (forall d :: d in writes ==> d in j.desired) && (forall o :: o in report.deleted ==> o in j.Orphans())
      requires DeepestFirst(prunes) && forall a :: a in prunes <==> InPrune(j, a)
      requires forall o :: o in j.Orphans() && o !in report.deleted ==> OnceSo(from, NotOwn(j, o))
      requires forall d :: d in j.desired && d !in writes ==> OnceSo(from, Holds(d, j.desired[d]))
      requires Quiet() ==> tree == t && WellFormed(t) && Passes(t, j) && Reports(order, t, j, report)
      requires Quiet() ==> forall d :: d in writes <==> d in j.desired && d !in InClass(t, j, Unchanged)
      modifies this`tree, this`clock, this`fuse, this`log, this`nextId
      ensures Valid() && AllowedSince(j, old(log), log) && step != Skipped
      ensures (fuse.None? <==> old(fuse).None?) && (step == Died ==> fuse == Some(0))
      ensures step == Done ==> CarriedOut(env, begin, from, log, j)
      ensures step == Done ==>
        Deletions(log) == Deletions(old(log)) + performed && Writings(log) == Writings(old(log)) + writes
      ensures step == Failed ==> OnceSo(from, InTheWay(j))
      ensures Quiet() ==> step != Failed
      ensures Quiet() && step == Done ==>
        && performed == report.deleted && Trees.Reconciled(t, j, tree)
        && StoppedAt(t, j, Writing(j.desired.Keys), tree)
      ensures Quiet() && step == Died ==> exists stop :: StoppedAt(t, j, stop, tree)
    {
      hide Replay; hide Truthful; hide Passes; hide Reports; hide WellFormed; hide Allowed; hide Once; hide InClass;
      hide Trees.Reconciled; hide StoppedAt; hide InPrune; hide Cleared; hide WithOutputs; hide Released; hide Emptied;
      hide DidWrite; hide Deletions; hide Writings;
      ReportLists(order, t, j, report);
      ghost var log0 := log;
      step, performed := DeleteOrphans(j, report.deleted);
      ghost var log1 := log;
      OnceStill(env, begin, |log0|, log1, from, log1);
      if step != Done { return; }
      DeletedTree(t, j);
      step := PruneDirectories(j, prunes, t);
      ghost var log2 := log;
      OnceStill(env, begin, |log1|, log2, from, log2);
      if step != Done { return; }
      step := WriteOutputs(j, writes, t);
      OnceStill(env, begin, |log2|, log, from, log);
      if step != Done { return; }
      AllCarriedOut(env, begin, from, log0, log1, log2, log, j, report.deleted, prunes, writes);
      if Quiet() { AllOutputsPlaced(t, j, writes, tree); }
    }

    /** Converges the tree on the desired outputs. */
    method Reconcile(desired: map<Path, Bytes>, dryRun: bool) returns (r: Outcome)
      requires Valid()
      modifies this`tree, this`clock, this`fuse, this`log, this`nextId, this`ledger
      ensures Valid() && (fuse.None? <==> old(fuse).None?) && (r.Stopped? ==> fuse == Some(0))
      // Whatever the outside world does to the tree:
      ensures AllowedSince(Job(desired, old(Recorded())), old(log), log)
      ensures if r.Finished? && !dryRun then Recorded() == desired else ledger == old(ledger)
      ensures dryRun ==> Watched(old(log), log)
      ensures var j := Job(desired, old(Recorded()));
        && (r.Refused? ==> !j.Valid() || OnceSo(|old(log)|, InTheWay(j)))
        && (r.Finished? ==> Witnessed(env, begin, |old(log)|, log, order, j, r.report))
        && (r.Finished? && dryRun ==> Foretold(env, begin, |old(log)|, log, order, j, r.report.deleted))
        && (r.Finished? && !dryRun ==>
              && CarriedOut(env, begin, |old(log)|, log, j)
              && Deletions(log) == Deletions(old(log)) + r.report.deleted
              && WroteOnly(order, old(log), log, desired.Keys - Elements(r.report.same)))
      // If it leaves the tree alone:
      ensures Quiet() ==> var j := Job(desired, old(Recorded()));
        && (r.Refused? <==> !(j.Valid() && Passes(old(tree), j)))
        && (r.Refused? || dryRun ==> tree == old(tree) && Watched(old(log), log))
        && (r.Finished? ==> Reports(order, old(tree), j, r.report))
        && (r.Finished? && !dryRun ==> Trees.Reconciled(old(tree), j, tree))
        && (r.Stopped? ==> exists stop :: StoppedAt(old(tree), j, stop, tree))
    {
      hide Replay; hide Truthful; hide Passes; hide Reports; hide WellFormed; hide Allowed; hide Once; hide Sorts;
      hide Trees.Reconciled; hide StoppedAt; hide InPrune; hide Cleared; hide WithOutputs; hide Seen; hide Witnessed;
      hide Deletions; hide Writings; hide CarriedOut; hide InClass; hide OfClass; hide DeepestFirst; hide WroteOnly;
      var j := Job(desired, Recorded());
      ghost var t, from := tree, |log|;
      var separate := SeparateFiles(desired.Keys);
      if !separate { return Refused; }
      separate := SeparateFiles(j.ledger.Keys);
      if !separate { return Refused; }
      var ok, report, writes, prunes;
      ghost var classes;
      ok, report, writes, prunes, classes := Preflight(j);
      if !ok { return Refused; }
      PreflightSaw(env, begin, from, log, order, j, report, classes, writes);
      if dryRun { return Finished(report); }
      WatchedOnly(old(log), log);
      ghost var watched := log;
      var step, performed := CarryOut(j, report, writes, prunes, from, t);
      if step == Failed { return Refused; }
      if step == Died { return Stopped; }
      WrittenAsListed(order, j, report, classes, old(log), log, writes);
      SawStill(env, begin, from, watched, log, order, j, report, performed);
      step := Publish(desired);
      if step == Died { return Stopped; }
      return Finished(report.(deleted := performed));
    }
  }

  /** The deletions a dry run foretells: the orphans that stood with the recorded bytes, and no others. */
  ghost predicate Foretold(env: World, s: Scene, from: nat, log: seq<Event>, order: Path -> int, j: Job,
      deleted: seq<Path>)
  {
    && Lists(order, deleted, Elements(deleted)) && Elements(deleted) <= j.Orphans()
    && forall o :: o in j.Orphans() ==> Once(env, s, from, log, if o in deleted then Own(j, o) else NotOwn(j, o))
  }

  /** Of the files written since, exactly `paths`, each once and in order. */
  ghost predicate WroteOnly(order: Path -> int, before: seq<Event>, log: seq<Event>, paths: set<Path>) {
    exists writes :: Writings(log) == Writings(before) + writes && Lists(order, writes, paths)
  }

  lemma WithDeletions(order: Path -> int, r: Report, classes: map<Path, Class>, deletions: seq<Path>)
    requires Sorts(order, r, classes)
    ensures Sorts(order, r.(deleted := deletions), classes)
  {}

  /** If nobody edits the tree, the classes are those of what stands there. */
  lemma QuietClasses(env: World, s: Scene, before: seq<Event>, log: seq<Event>, order: Path -> int, t: Tree, j: Job,
      classes: map<Path, Class>, r: Report)
    requires (forall n, t {:trigger env(n, t)} :: env(n, t) == t) && Watched(before, log)
    requires Seen(env, s, |before|, log, j, classes) && Sorts(order, r, classes) && t == Replay(env, s, before).tree
    ensures forall c :: OfClass(classes, c) == InClass(t, j, c)
    ensures Lists(order, r.deleted, OwnedIn(t, j)) ==> Reports(order, t, j, r)
  {
    hide Replay; hide Lists; hide Classify; hide Fits; hide Current;
    forall d | d in j.desired ensures forall c :: Fits(t, j, c, d) <==> c == classes[d] {
      assert Once(env, s, |before|, log, Fitting(j, classes[d], d));
      var i :| |before| <= i <= |log| && So(Replay(env, s, log[..i]).tree, Fitting(j, classes[d], d));
      QuietOnce(env, s, before, log, i);
      forall c ensures Fits(t, j, c, d) <==> c == classes[d] {
        ClassFits(t, j, d, c);
        ClassFits(t, j, d, classes[d]);
      }
    }
    forall c ensures OfClass(classes, c) == InClass(t, j, c) {
      forall d ensures d in OfClass(classes, c) <==> d in InClass(t, j, c) {
        if d in InClass(t, j, c) { assert Fits(t, j, c, d); FitsDesired(t, j, c, d); }
      }
    }
  }

  lemma FitsDesired(t: Tree, j: Job, c: Class, d: Path)
    requires Fits(t, j, c, d)
    ensures d in j.desired
  {}

  /** What preflight saw of the outputs and orphans it leaves alone. */
  lemma PreflightSaw(env: World, s: Scene, from: nat, log: seq<Event>, order: Path -> int, j: Job, r: Report,
      classes: map<Path, Class>, writes: seq<Path>)
    requires Sorts(order, r, classes) && Seen(env, s, from, log, j, classes)
    requires Lists(order, writes, j.desired.Keys - OfClass(classes, Unchanged))
    requires Lists(order, r.deleted, Elements(r.deleted)) && Elements(r.deleted) <= j.Orphans()
    requires forall o :: o in j.Orphans() ==>
      Once(env, s, from, log, if o in r.deleted then Own(j, o) else NotOwn(j, o))
    ensures Witnessed(env, s, from, log, order, j, r) && Foretold(env, s, from, log, order, j, r.deleted)
    ensures forall d :: d in j.desired && d !in writes ==> Once(env, s, from, log, Holds(d, j.desired[d]))
  {
    hide Replay;
    forall d | d in j.desired && d !in writes ensures Once(env, s, from, log, Holds(d, j.desired[d])) {
      assert d in OfClass(classes, Unchanged);
      assert Once(env, s, from, log, Fitting(j, classes[d], d));
      var i :| from <= i <= |log| && So(Replay(env, s, log[..i]).tree, Fitting(j, Unchanged, d));
      assert So(Replay(env, s, log[..i]).tree, Holds(d, j.desired[d]));
    }
  }

  lemma WrittenAsListed(order: Path -> int, j: Job, r: Report, classes: map<Path, Class>, before: seq<Event>,
      log: seq<Event>, writes: seq<Path>)
    requires Sorts(order, r, classes) && Lists(order, writes, j.desired.Keys - OfClass(classes, Unchanged))
    requires Writings(log) == Writings(before) + writes
    ensures WroteOnly(order, before, log, j.desired.Keys - Elements(r.same))
  {
    assert Elements(r.same) == OfClass(classes, Unchanged);
  }

  lemma SawStill(env: World, s: Scene, from: nat, log: seq<Event>, log': seq<Event>, order: Path -> int, j: Job,
      r: Report, performed: seq<Path>)
    requires Witnessed(env, s, from, log, order, j, r) && log <= log'
    ensures Witnessed(env, s, from, log', order, j, r.(deleted := performed))
  {
    hide Once; hide Lists;
    OnceStill(env, s, from, log, from, log');
    var classes :| Sorts(order, r, classes) && Seen(env, s, from, log, j, classes);
    assert Sorts(order, r.(deleted := performed), classes) && Seen(env, s, from, log', j, classes);
  }

  lemma AllCarriedOut(env: World, s: Scene, from: nat, log0: seq<Event>, log1: seq<Event>, log2: seq<Event>,
      log3: seq<Event>, j: Job, deletions: seq<Path>, prunes: seq<Path>, writes: seq<Path>)
    requires from <= |log0| && log0 <= log1 && log1 <= log2 && log2 <= log3
    requires forall o :: o in j.Orphans() && o !in deletions ==> Once(env, s, from, log0, NotOwn(j, o))
    requires forall d :: d in j.desired && d !in writes ==> Once(env, s, from, log0, Holds(d, j.desired[d]))
    requires forall o :: o in deletions ==> Released(env, s, |log0|, log1, j, o)
    requires forall a :: a in prunes <==> InPrune(j, a)
    requires forall a :: a in prunes ==> Emptied(env, s, |log1|, log2, a)
    requires forall d :: d in writes && d in j.desired ==> DidWrite(log3, |log2|, d, j.desired[d])
    ensures CarriedOut(env, s, from, log3, j)
  {
    hide Once; hide DidWrite; hide DidDelete; hide DidRemove; hide InPrune;
    OnceStill(env, s, from, log0, from, log3);
    OnceStill(env, s, |log0|, log1, from, log3);
    DidStill(|log0|, log1, from, log3);
    OnceStill(env, s, |log1|, log2, from, log3);
    DidStill(|log1|, log2, from, log3);
    DidStill(|log2|, log3, from, log3);
    forall o | o in j.Orphans() ensures Released(env, s, from, log3, j, o) {
      if o in deletions { assert Released(env, s, |log0|, log1, j, o); }
    }
    forall d | d in j.desired ensures Provided(env, s, from, log3, j, d) {}
    forall a | InPrune(j, a) ensures Emptied(env, s, from, log3, a) { assert a in prunes; }
  }

  /** A regular file outside the desired set. */
  ghost predicate Stray(t: Tree, j: Job, q: Path) {
    q in t && t[q].File? && q !in j.desired
  }

  ghost function DirsUnder(t: Tree, tops: set<Path>): set<Path> {
    set q | q in t && t[q].Dir? && exists d :: d in tops && (d == q || Above(d, q))
  }

  /** Listing one directory of the worklist and queueing its subdirectories loses no stray file. */
  lemma Descended(t: Tree, j: Job, p: Path, before: set<Path>, dir: Path, after: set<Path>)
    requires WellFormed(t) && dir in before
    requires forall d :: d in before ==> d in t && t[d].Dir? && (d == p || Above(p, d))
    requires forall x, y {:trigger Above(x, y)} :: x in before && y in before ==> !Above(x, y)
    requires after == before - {dir} + set e | e in t && ChildOf(e, dir) && t[e].Dir?
    requires forall e {:trigger ChildOf(e, dir)} :: e in t && ChildOf(e, dir) && t[e].File? ==> e in j.desired
    requires forall q {:trigger Above(p, q)} :: Stray(t, j, q) && Above(p, q) ==> exists d :: d in before && Above(d, q)
    ensures forall d :: d in after ==> d in t && t[d].Dir? && (d == p || Above(p, d))
    ensures forall x, y {:trigger Above(x, y)} :: x in after && y in after ==> !Above(x, y)
    ensures forall q {:trigger Above(p, q)} :: Stray(t, j, q) && Above(p, q) ==> exists d :: d in after && Above(d, q)
    ensures DirsUnder(t, after) < DirsUnder(t, before)
  {
    forall d | d in after ensures d in t && t[d].Dir? && (d == p || Above(p, d)) {
      if d !in before && dir != p { AboveTransitive(p, dir, d); }
    }
    forall x, y | x in after && y in after && Above(x, y) ensures false {
      if y !in before {
        if |x| < |dir| { AboveComparable(x, dir, y); }
      }
      if x !in before { AboveTransitive(dir, x, y); }
    }
    forall q | Stray(t, j, q) && Above(p, q) ensures exists d :: d in after && Above(d, q) {
      var d :| d in before && Above(d, q);
      if d == dir {
        var e := q[..|dir| + 1];
        assert ChildOf(e, dir);
        if e != q { assert Above(e, q); }
        assert e != q;
        assert e in after;
      }
    }
    forall q | q in DirsUnder(t, after) ensures q in DirsUnder(t, before) && q != dir {
      var d :| d in after && (d == q || Above(d, q));
      if d !in before {
        if d != q { AboveTransitive(dir, d, q); }
      }
    }
    assert dir in DirsUnder(t, before);
  }

  /** In a well-formed tree nothing stands below a missing entry. */
  lemma NothingBelowMissing(t: Tree, p: Path, i: nat)
    requires WellFormed(t) && 1 <= i <= |p| && p[..i] !in t
    requires forall k :: 1 <= k < i ==> p[..k] in t && t[p[..k]].Dir?
    ensures !Blocked(t, p) && p !in t
  {
    forall a | Above(a, p) ensures !(a in t && t[a].File?) {
      if |a| < i {
        assert a == p[..|a|];
      } else if |a| > i {
        AboveComparable(p[..i], a, p);
      }
    }
    if i == |p| { assert p[..i] == p; } else { assert Above(p[..i], p); }
  }

  lemma EmptyDirectory(t: Tree, a: Path)
    requires WellFormed(t) && a in t && forall e :: e in t ==> !ChildOf(e, a)
    ensures forall p :: p in t ==> !Above(a, p)
    ensures WellFormed(t - {a})
  {
    forall p | p in t ensures !Above(a, p) {
      if Above(a, p) { FirstStep(t, a, p); }
    }
  }

  lemma FirstStep(t: Tree, a: Path, p: Path)
    requires WellFormed(t) && p in t && Above(a, p)
    ensures p[..|a| + 1] in t && ChildOf(p[..|a| + 1], a)
  {
    var e := p[..|a| + 1];
    if e != p { assert Above(e, p); }
  }

  /** `t'` is `t` with a file at `p` and its parent directories made. */
  ghost predicate WriteAt(t: Tree, p: Path, content: Bytes, t': Tree) {
    && (forall q :: q in t' <==> q in t || q == p || Above(q, p))
    && (forall q :: q in t' ==>
          if q == p then View(t'[q]) == Regular(content) else if q in t then t'[q] == t[q] else t'[q].Dir?)
  }

  lemma ParentsMade(t: Tree, p: Path, content: Bytes, id: nat)
    requires WellFormed(t) && p != [] && !Blocked(t, p) && (p in t ==> t[p].File?)
    ensures var t' := WithFile(t, p, content, id); WriteAt(t, p, content, t') && WellFormed(t')
  {
    var t' := WithFile(t, p, content, id);
    forall q ensures q in Parents(p) <==> Above(q, p) {
      if Above(q, p) { assert q == p[..|q|]; }
    }
    forall q, a | q in t' && Above(a, q) ensures a in t' && t'[a].Dir? {
      if q in t {
        assert a in t && t[a].Dir?;
      } else {
        if q != p { AboveTransitive(a, q, p); }
        if a in t { assert !t[a].File?; }
      }
    }
  }

  ghost predicate AboveSome(a: Path, orphans: seq<Path>) {
    exists o :: o in orphans && Above(a, o)
  }

  ghost predicate PruneOf(j: Job, a: Path) {
    exists d :: d in j.desired && (d == a || Above(d, a))
  }

  /** The orphans a regular file stands at. */
  ghost function Standing(t: Tree, j: Job): set<Path> {
    set o | o in j.Orphans() && o in t && t[o].File?
  }

  /** The entries of `from` that lie in `elems`, in the order they come. */
  ghost predicate Sublist(order: Path -> int, s: seq<Path>, from: seq<Path>, elems: set<Path>) {
    && (forall x :: x in s <==> x in from && x in elems)
    && (forall i, k :: 0 <= i < k < |s| ==> order(s[i]) < order(s[k]))
  }

  ghost predicate Sorting(order: Path -> int, from: seq<Path>, classes: map<Path, Class>,
    created: seq<Path>, updated: seq<Path>, repaired: seq<Path>, same: seq<Path>, writes: seq<Path>)
  {
    && Sublist(order, created, from, OfClass(classes, Created))
    && Sublist(order, updated, from, OfClass(classes, Updated))
    && Sublist(order, repaired, from, OfClass(classes, Repaired))
    && Sublist(order, same, from, OfClass(classes, Unchanged))
    && Sublist(order, writes, from, classes.Keys - OfClass(classes, Unchanged))
  }

  lemma NothingListed(order: Path -> int)
    ensures Sorting(order, [], map[], [], [], [], [], [])
  {}

  lemma Append(order: Path -> int, s: seq<Path>, from: seq<Path>, d: Path, elems: set<Path>, elems': set<Path>)
    requires Sublist(order, s, from, elems) && (forall x :: x in from ==> order(x) < order(d))
    requires elems' == elems || elems' == elems + {d}
    requires d !in elems
    ensures Sublist(order, if d in elems' then s + [d] else s, from + [d], elems')
  {}

  lemma OneMoreListed(order: Path -> int, wanted: seq<Path>, k: nat, classes: map<Path, Class>,
      created: seq<Path>, updated: seq<Path>, repaired: seq<Path>, same: seq<Path>, writes: seq<Path>, c: Class)
    requires k < |wanted| && (forall i, m :: 0 <= i < m < |wanted| ==> order(wanted[i]) < order(wanted[m]))
    requires classes.Keys == Elements(wanted[..k])
    requires Sorting(order, wanted[..k], classes, created, updated, repaired, same, writes)
    ensures var d := wanted[k];
            && Sorting(order, wanted[..k + 1], classes[d := c],
                 if c.Created? then created + [d] else created, if c.Updated? then updated + [d] else updated,
                 if c.Repaired? then repaired + [d] else repaired, if c.Unchanged? then same + [d] else same,
                 if c.Unchanged? then writes else writes + [d])
            && classes[d := c].Keys == Elements(wanted[..k + 1])
  {
    hide Sublist;
    var d := wanted[k];
    var classes' := classes[d := c];
    assert wanted[..k + 1] == wanted[..k] + [d];
    forall x | x in wanted[..k] ensures order(x) < order(d) {}
    forall e ensures OfClass(classes', e) == if e == c then OfClass(classes, e) + {d} else OfClass(classes, e) {}
    Append(order, created, wanted[..k], d, OfClass(classes, Created), OfClass(classes', Created));
    Append(order, updated, wanted[..k], d, OfClass(classes, Updated), OfClass(classes', Updated));
    Append(order, repaired, wanted[..k], d, OfClass(classes, Repaired), OfClass(classes', Repaired));
    Append(order, same, wanted[..k], d, OfClass(classes, Unchanged), OfClass(classes', Unchanged));
    Append(order, writes, wanted[..k], d, classes.Keys - OfClass(classes, Unchanged),
      classes'.Keys - OfClass(classes', Unchanged));
  }

  lemma AllSorted(order: Path -> int, wanted: seq<Path>, classes: map<Path, Class>,
      created: seq<Path>, updated: seq<Path>, repaired: seq<Path>, same: seq<Path>, writes: seq<Path>)
    requires Sorting(order, wanted, classes, created, updated, repaired, same, writes)
    requires classes.Keys == Elements(wanted)
    ensures Sorts(order, Report(created, updated, repaired, [], same), classes)
    ensures Lists(order, writes, classes.Keys - OfClass(classes, Unchanged))
  {}

  lemma PrunedIsNamed(j: Job, a: Path)
    requires InPrune(j, a)
    ensures a != []
  {}

  /** A desired path below orphan files that are all to be deleted. */
  lemma FreedByDeletion(t: Tree, j: Job, files: set<Path>, owned: set<Path>, d: Path)
    requires WellFormed(t) && files == Standing(t, j) && owned == OwnedIn(t, j)
    requires exists a :: a in files && Above(a, d)
    requires forall a :: a in files && Above(a, d) ==> a in owned
    ensures DesiredPasses(t, j, d) && d !in t
  {
    var b :| b in files && Above(b, d);
    forall a | Above(a, d) && a in t && t[a].File? ensures Owned(t, j, a) {
      if |a| < |b| { AboveComparable(a, b, d); }
      if |b| < |a| { AboveComparable(b, a, d); }
      if |a| == |b| { assert a == b; }
    }
  }

  /** Since then there were edits from outside at most. */
  ghost predicate Watched(before: seq<Event>, log: seq<Event>) {
    before <= log && forall i :: |before| <= i < |log| ==> log[i] == Outside
  }

  /** Everything the run did since then was allowed. */
  ghost predicate AllowedSince(j: Job, before: seq<Event>, log: seq<Event>) {
    before <= log && forall i :: |before| <= i < |log| && log[i].Did? ==> Allowed(j, log[i].mutation)
  }

  /** An entry that neither goes with the orphans nor is pruned itself. */
  ghost predicate Unprunable(t: Tree, a: Path, owned: set<Path>, prune: set<Path>, e: Path) {
    e in t && ChildOf(e, a) && e !in owned && !(e in prune && t[e].Dir?)
  }

  /** What preflight takes `owned` and `prune` for. */
  ghost predicate Decided(t: Tree, j: Job, a: Path, owned: set<Path>, prune: set<Path>) {
    && !Blocked(t, a) && (forall e :: e in t ==> (e in owned <==> Owned(t, j, e)))
    && forall e :: e in prune <==> InPrune(j, e)
  }

  lemma DecidedPasses(t: Tree, j: Job, a: Path, owned: set<Path>, prune: set<Path>)
    requires Decided(t, j, a, owned, prune) && WellFormed(t) && a != []
    ensures PrunePasses(t, j, a) <==> forall e :: !Unprunable(t, a, owned, prune, e)
  {
    if !(a in t && t[a].Dir?) { ChildOfDirectory(t, a); }
    if PrunePasses(t, j, a) {
      forall e ensures !Unprunable(t, a, owned, prune, e) {}
    }
    if forall e :: !Unprunable(t, a, owned, prune, e) {
      forall e | e in t && ChildOf(e, a) ensures Owned(t, j, e) || (InPrune(j, e) && t[e].Dir?) {
        assert !Unprunable(t, a, owned, prune, e);
      }
    }
  }

  /** Only directories have entries. */
  lemma ChildOfDirectory(t: Tree, a: Path)
    requires WellFormed(t) && a != [] && !(a in t && t[a].Dir?)
    ensures forall e {:trigger ChildOf(e, a)} :: e in t ==> !ChildOf(e, a)
  {}

  lemma NotYet(order: Path -> int, s: seq<Path>, k: nat, elems: set<Path>)
    requires Lists(order, s, elems) && k < |s|
    ensures s[k] in elems && s[k] !in Elements(s[..k]) && forall x :: x in Elements(s[..k]) ==> x in elems
  {
    forall x | x in Elements(s[..k]) ensures x in elems && x != s[k] {
      var i :| 0 <= i < k && s[i] == x;
    }
  }

  lemma OwnedReachable(t: Tree, j: Job, gone: set<Path>, o: Path)
    requires WellFormed(t) && Owned(t, j, o) && o !in gone
    ensures !Blocked(t - gone, o) && o in t - gone
  {}

  lemma StoppedDeleting(t: Tree, j: Job, gone: set<Path>, t': Tree)
    requires t' == t - gone && forall o :: o in gone ==> Owned(t, j, o)
    ensures StoppedAt(t, j, Deleting(gone), t')
  {}

  ghost predicate DeepestFirst(s: seq<Path>) {
    && (forall i, k :: 0 <= i < k < |s| ==> |s[i]| >= |s[k]| && s[i] != s[k])
  }

  /** The orphans deleted and the directories in `gone` pruned. */
  ghost function PrunedTree(t: Tree, j: Job, gone: set<Path>): Tree {
    map p | p in t && !Owned(t, j, p) && !(p in gone && t[p].Dir?) :: t[p]
  }

  /** When its turn comes, a directory to prune is reachable and, if it stands, empty. */
  lemma ReadyToPrune(t: Tree, j: Job, prunes: seq<Path>, k: nat)
    requires WellFormed(t) && Passes(t, j) && DeepestFirst(prunes) && k < |prunes|
    requires forall a :: a in prunes <==> InPrune(j, a)
    ensures var now, a := PrunedTree(t, j, Elements(prunes[..k])), prunes[k];
            && !Blocked(now, a) && a !in Elements(prunes[..k]) && (a in now <==> a in t && !Owned(t, j, a))
            && (a in now && now[a].Dir? ==> forall e :: e in now ==> !ChildOf(e, a))
  {
    var a := prunes[k];
    var now := PrunedTree(t, j, Elements(prunes[..k]));
    assert a in prunes && PrunePasses(t, j, a);
    if a in t && t[a].Dir? {
      forall e | e in t && ChildOf(e, a) ensures e !in now {
        if InPrune(j, e) {
          var m :| 0 <= m < |prunes| && prunes[m] == e;
          assert m < k;
          assert prunes[..k][m] == e;
        }
      }
    }
  }

  lemma StoppedPruning(t: Tree, j: Job, gone: set<Path>, t': Tree)
    requires t' == PrunedTree(t, j, gone) && forall a :: a in gone ==> InPrune(j, a)
    ensures exists g :: StoppedAt(t, j, Pruning(g), t')
  {
    var g := set a | a in gone && Pruned(t, j, a);
    assert t' == map p | p in t && !Owned(t, j, p) && p !in g :: t[p];
    assert StoppedAt(t, j, Pruning(g), t');
  }

  lemma ReadyToWrite(t: Tree, j: Job, written: set<Path>, t': Tree, d: Path)
    requires j.Valid() && WellFormed(t) && Passes(t, j) && StoppedAt(t, j, Writing(written), t') && d in j.desired
    ensures !Blocked(t', d) && !(d in t' && t'[d].Dir?)
  {
    WritingDesired(t, j, written, t', d);
    forall a | Above(a, d) && a in t' && t'[a].File? ensures false {
      assert Owned(t', j, a);
      WritingOrphan(t, j, written, t', a);
    }
  }

  lemma OneMoreWritten(t: Tree, j: Job, written: set<Path>, t': Tree, d: Path, t'': Tree)
    requires StoppedAt(t, j, Writing(written), t') && d in j.desired && WriteAt(t', d, j.desired[d], t'')
    ensures StoppedAt(t, j, Writing(written + {d}), t'')
  {}

  lemma PruneOne(t: Tree, j: Job, gone: set<Path>, a: Path)
    ensures var now := PrunedTree(t, j, gone);
            PrunedTree(t, j, gone + {a}) == if a in now && now[a].Dir? then now - {a} else now
  {}

  lemma AllPruned(t: Tree, j: Job, prunes: seq<Path>)
    requires forall a :: a in prunes <==> InPrune(j, a)
    ensures PrunedTree(t, j, Elements(prunes)) == Cleared(t, j)
  {}

  lemma NothingWritten(t: Tree, j: Job)
    ensures WithOutputs(Cleared(t, j), j, {}, Cleared(t, j))
  {}

  method SeparateFiles(paths: set<Path>) returns (ok: bool)
    ensures ok <==> Separate(paths)
  {
    return [] !in paths && forall p, q | p in paths && q in paths :: !Above(p, q);
  }

  lemma ReportLists(order: Path -> int, t: Tree, j: Job, r: Report)
    ensures Reports(order, t, j, r) ==> Lists(order, r.deleted, OwnedIn(t, j))
  {}

  lemma DeletedTree(t: Tree, j: Job)
    ensures t - OwnedIn(t, j) == PrunedTree(t, j, {})
  {}

  /** With the outputs that differed written and the others as they were, every output is in place;
      only the ledger is left to publish. */
  lemma AllOutputsPlaced(t: Tree, j: Job, writes: seq<Path>, t': Tree)
    requires j.Valid() && WellFormed(t) && Passes(t, j) && WithOutputs(Cleared(t, j), j, Elements(writes), t')
    requires forall d :: d in writes <==> d in j.desired && d !in InClass(t, j, Unchanged)
    ensures Trees.Reconciled(t, j, t') && StoppedAt(t, j, Writing(j.desired.Keys), t')
  {
    var c := Cleared(t, j);
    ClearedWellFormed(t, j);
    forall d | d in j.desired && d !in writes ensures d in c && View(c[d]) == Regular(j.desired[d]) {
      assert d in InClass(t, j, Unchanged);
    }
    forall p ensures p in t' <==> p in c || p in j.desired || exists w :: w in j.desired && Above(p, w) {
      if w :| w in j.desired && Above(p, w) {
        if w !in writes { assert p in c; }
      }
    }
    forall p | p in t' && p !in j.desired && p !in c ensures t'[p].Dir? {}
  }

  // ---------------------------------------------------------------------------------------------
  // Runs in a row

  /** A run cut short anywhere and repeated ends where an uninterrupted run ends, if the layout change
      is shallow; and a run over a reconciled tree reports everything unchanged. */
  method ReconcileAgain(root: Root, desired: map<Path, Bytes>) returns (first: Outcome, second: Outcome)
    requires root.Valid() && root.Quiet()
    modifies root
    ensures var j := Job(desired, old(root.Recorded()));
      && (first.Refused? || Shallow(j) ==> (first.Refused? <==> second.Refused?))
      && (!first.Refused? && Shallow(j) ==>
            second.Finished? && Trees.Reconciled(old(root.tree), j, root.tree) && root.Recorded() == desired)
      && (first.Finished? ==>
            second.Finished? && Elements(second.report.same) == desired.Keys && second.report.deleted == [])
  {
    ghost var t, j := root.tree, Job(desired, root.Recorded());
    first := root.Reconcile(desired, false);
    root.fuse := None;
    ghost var t1, again := root.tree, Job(desired, root.Recorded());
    second := root.Reconcile(desired, false);
    if first.Finished? {
      SecondRunIsIdle(t, j, t1);
      IdleReport(root.order, t1, again, second, root.tree);
      PlacedTwice(t, j, t1, again, root.tree);
    } else if first.Stopped? && Shallow(j) {
      ghost var stop :| StoppedAt(t, j, stop, t1);
      Resumes(t, j, stop, t1, root.tree);
    }
  }

  lemma IdleReport(order: Path -> int, t: Tree, j: Job, r: Outcome, t': Tree)
    requires j.ledger == j.desired && r.Finished? && Reports(order, t, j, r.report)
    requires forall d :: d in j.desired ==> d in t && View(t[d]) == Regular(j.desired[d])
    ensures Elements(r.report.same) == j.desired.Keys && r.report.deleted == []
  {
    assert InClass(t, j, Unchanged) == j.desired.Keys;
    assert OwnedIn(t, j) == {};
    ListsUnique(order, r.report.deleted, [], {});
  }

  lemma PlacedTwice(t: Tree, j: Job, t': Tree, again: Job, t'': Tree)
    requires again == Job(j.desired, j.desired) && Trees.Reconciled(t, j, t') && Cleared(t', again) == t'
    requires Trees.Reconciled(t', again, t'')
    ensures Trees.Reconciled(t, j, t'')
  {}
}
