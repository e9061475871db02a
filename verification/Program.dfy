/** Query programs and what a fresh database computes from them.

    A query body is a deterministic step function: from the answers it has read so far it either
    finishes with a value, raises, or asks for one more node. `Eval` is the reference meaning of a
    program: run everything from scratch, remember nothing.
 */
module Programs {
  import opened Options

  type Value = int

  /** A node of the graph. `Ambient` names untracked outside state: it is read, never recorded. */
  datatype Key = Input(id: nat) | Resource(id: nat) | Query(id: nat) | Ambient(id: nat)

  /** What a read hands to the body. A load that raised with an observable probe is `Failed`;
      a raise whose probe cannot be observed either is `Unobservable`. */
  datatype Answer = Val(v: Value) | Failed(error: int) | Unobservable

  datatype Move = Done(result: Value) | Raise | Ask(key: Key)

  /** `bound` limits how many reads one execution makes: a body is a terminating program. */
  datatype RawBody = RawBody(step: seq<Answer> -> Move, bound: nat)

  ghost predicate Halts(b: RawBody) {
    forall h: seq<Answer> {:trigger b.step(h)} :: |h| >= b.bound ==> !b.step(h).Ask?
  }

  const Idle: RawBody := RawBody((h: seq<Answer>) => Raise, 0)

  type Body = b: RawBody | Halts(b) ghost witness Idle

  type Prog = map<nat, Body>

  /** The answer of every leaf; None stands for a read that raises out of the body. */
  type Leaves = Key -> Option<Answer>

  /** From-scratch evaluation, `n` calls deep. None: it raises, or needs more depth. */
  ghost function Eval(prog: Prog, leaves: Leaves, n: nat, k: Key): Option<Answer>
    decreases n, 0, 0
  {
    if !k.Query? then leaves(k)
    else if n == 0 || k.id !in prog then None
    else RunBody(prog, leaves, n - 1, prog[k.id], [])
  }

  ghost function RunBody(prog: Prog, leaves: Leaves, n: nat, b: Body, read: seq<Answer>): Option<Answer>
    decreases n, 1, if |read| < b.bound then b.bound - |read| else 0
  {
    match b.step(read)
    case Done(v) => Some(Val(v))
    case Raise => None
    case Ask(k) =>
      match Eval(prog, leaves, n, k)
      case None => None
      case Some(a) => RunBody(prog, leaves, n, b, read + [a])
  }

  /** `a` is what a fresh database answers for `k`. */
  ghost predicate Fresh(prog: Prog, leaves: Leaves, k: Key, a: Answer) {
    exists n: nat :: Eval(prog, leaves, n, k) == Some(a)
  }

  ghost predicate Extends(small: Leaves, large: Leaves) {
    forall k :: small(k).Some? ==> large(k) == small(k)
  }

  lemma {:induction false} EvalMonotone(prog: Prog, l: Leaves, l': Leaves, n: nat, n': nat, k: Key)
    requires n <= n' && Extends(l, l') && Eval(prog, l, n, k).Some?
    ensures Eval(prog, l', n', k) == Eval(prog, l, n, k)
    decreases n, 0, 0
  {
    if k.Query? {
      RunBodyMonotone(prog, l, l', n - 1, n' - 1, prog[k.id], []);
    }
  }

  lemma {:induction false} RunBodyMonotone(prog: Prog, l: Leaves, l': Leaves, n: nat, n': nat, b: Body,
      read: seq<Answer>)
    requires n <= n' && Extends(l, l') && RunBody(prog, l, n, b, read).Some?
    ensures RunBody(prog, l', n', b, read) == RunBody(prog, l, n, b, read)
    decreases n, 1, if |read| < b.bound then b.bound - |read| else 0
  {
    match b.step(read)
    case Done(_) =>
    case Ask(k) =>
      EvalMonotone(prog, l, l', n, n', k);
      RunBodyMonotone(prog, l, l', n, n', b, read + [Eval(prog, l, n, k).value]);
  }

  /** A fresh database has one answer, and knowing more leaves does not change it. */
  lemma FreshUnique(prog: Prog, l: Leaves, l': Leaves, k: Key, a: Answer, a': Answer)
    requires Extends(l, l') && Fresh(prog, l, k, a) && Fresh(prog, l', k, a')
    ensures a == a'
  {
    var n: nat :| Eval(prog, l, n, k) == Some(a);
    var m: nat :| Eval(prog, l', m, k) == Some(a');
    EvalMonotone(prog, l, l', n, n + m, k);
    EvalMonotone(prog, l', l', m, n + m, k);
  }

  lemma FreshExtends(prog: Prog, l: Leaves, l': Leaves, k: Key, a: Answer)
    requires Extends(l, l') && Fresh(prog, l, k, a)
    ensures Fresh(prog, l', k, a)
  {
    var n: nat :| Eval(prog, l, n, k) == Some(a);
    EvalMonotone(prog, l, l', n, n, k);
  }

  /** One recorded execution: the nodes read, in order, and the answers received. */
  datatype Trace = Trace(keys: seq<Key>, answers: seq<Answer>)

  /** Running the body on the recorded answers asks exactly the recorded keys and ends in `a`. */
  ghost predicate Replays(b: Body, t: Trace, a: Answer) {
    && |t.keys| == |t.answers|
    && (forall i {:trigger t.keys[i]} :: 0 <= i < |t.keys| ==> b.step(t.answers[..i]) == Ask(t.keys[i]))
    && a.Val? && b.step(t.answers) == Done(a.v)
  }

  lemma ReplayAt(b: Body, t: Trace, a: Answer, n: nat)
    requires Replays(b, t, a) && n <= |t.keys|
    ensures a.Val? && b.step(t.answers[..n]) == if n < |t.keys| then Ask(t.keys[n]) else Done(a.v)
  {
    assert t.answers[..|t.keys|] == t.answers;
  }

  /** Every recorded answer is what evaluation gives at one common depth. */
  lemma {:induction false} CommonDepth(prog: Prog, l: Leaves, t: Trace, i: nat) returns (n: nat)
    requires |t.keys| == |t.answers| && i <= |t.keys|
    requires forall j :: 0 <= j < i ==> Fresh(prog, l, t.keys[j], t.answers[j])
    ensures forall j :: 0 <= j < i ==> Eval(prog, l, n, t.keys[j]) == Some(t.answers[j])
  {
    n := 0;
    if i > 0 {
      var m := CommonDepth(prog, l, t, i - 1);
      var last: nat :| Eval(prog, l, last, t.keys[i - 1]) == Some(t.answers[i - 1]);
      n := m + last;
      EvalMonotone(prog, l, l, last, n, t.keys[i - 1]);
      forall j | 0 <= j < i - 1 ensures Eval(prog, l, n, t.keys[j]) == Some(t.answers[j]) {
        EvalMonotone(prog, l, l, m, n, t.keys[j]);
      }
    }
  }

  /** What replays over fresh answers is fresh. */
  lemma FreshReplay(prog: Prog, l: Leaves, q: Key, t: Trace, a: Answer)
    requires q.Query? && q.id in prog && Replays(prog[q.id], t, a)
    requires forall j :: 0 <= j < |t.keys| ==> Fresh(prog, l, t.keys[j], t.answers[j])
    ensures Fresh(prog, l, q, a)
  {
    var n := CommonDepth(prog, l, t, |t.keys|);
    ReplayRuns(prog, l, n, prog[q.id], t, a, 0);
    assert t.answers[..0] == [];
    assert Eval(prog, l, n + 1, q) == Some(a);
  }

  /** If every recorded answer is what evaluation gives at depth `n`, so is the recorded result. */
  lemma {:induction false} ReplayRuns(prog: Prog, l: Leaves, n: nat, b: Body, t: Trace, a: Answer, i: nat)
    requires Replays(b, t, a) && i <= |t.keys|
    requires forall j :: 0 <= j < |t.keys| ==> Eval(prog, l, n, t.keys[j]) == Some(t.answers[j])
    ensures RunBody(prog, l, n, b, t.answers[..i]) == Some(a)
    decreases |t.keys| - i
  {
    if i == |t.keys| {
      assert t.answers[..i] == t.answers;
    } else {
      ReplayRuns(prog, l, n, b, t, a, i + 1);
      assert t.answers[..i] + [t.answers[i]] == t.answers[..i + 1];
      assert b.step(t.answers[..i]) == Ask(t.keys[i]);
    }
  }

  // ---------------------------------------------------------------------------------------------
  // Which leaves evaluation reads

  ghost function LeavesRead(prog: Prog, l: Leaves, n: nat, k: Key): set<Key>
    decreases n, 0, 0
  {
    if !k.Query? then {k}
    else if n == 0 || k.id !in prog then {}
    else BodyLeaves(prog, l, n - 1, prog[k.id], [])
  }

  ghost function BodyLeaves(prog: Prog, l: Leaves, n: nat, b: Body, read: seq<Answer>): set<Key>
    decreases n, 1, if |read| < b.bound then b.bound - |read| else 0
  {
    match b.step(read)
    case Ask(k) =>
      LeavesRead(prog, l, n, k) +
      (match Eval(prog, l, n, k)
       case None => {}
       case Some(a) => BodyLeaves(prog, l, n, b, read + [a]))
    case _ => {}
  }

  /** Whatever from-scratch evaluation of `q` reads, to any depth, is untracked or among `keys`. */
  ghost predicate ReadsWithin(prog: Prog, l: Leaves, q: Key, keys: set<Key>) {
    forall n: nat, k {:trigger k in LeavesRead(prog, l, n, q)} ::
      k in LeavesRead(prog, l, n, q) ==> !k.Query? && (k.Ambient? || k in keys)
  }

  // ---------------------------------------------------------------------------------------------
  // How deep evaluation goes

  ghost predicate IsDepth(prog: Prog, l: Leaves, k: Key, n: nat) {
    Eval(prog, l, n, k).Some? && (n > 0 ==> Eval(prog, l, n - 1, k).None?)
  }

  /** The depth at which `k` first has an answer; 0 if it never has one. */
  ghost function MinDepth(prog: Prog, l: Leaves, k: Key): nat {
    if exists n: nat :: IsDepth(prog, l, k, n) then
      var n: nat :| IsDepth(prog, l, k, n); n
    else 0
  }

  lemma {:induction false} LeastDepth(prog: Prog, l: Leaves, k: Key, n: nat) returns (m: nat)
    requires Eval(prog, l, n, k).Some?
    ensures m <= n && IsDepth(prog, l, k, m)
  {
    if n == 0 || Eval(prog, l, n - 1, k).None? { m := n; } else { m := LeastDepth(prog, l, k, n - 1); }
  }

  lemma MinDepthAt(prog: Prog, l: Leaves, k: Key, n: nat)
    requires Eval(prog, l, n, k).Some?
    ensures MinDepth(prog, l, k) <= n && IsDepth(prog, l, k, MinDepth(prog, l, k))
  {
    var m := LeastDepth(prog, l, k, n);
    var m' := MinDepth(prog, l, k);
    if m < m' { EvalMonotone(prog, l, l, m, m' - 1, k); }
    if m' < m { EvalMonotone(prog, l, l, m', m - 1, k); }
  }

  /** Evaluating a body goes through the recorded execution, if the recorded answers are fresh. */
  lemma {:induction false} RunReads(prog: Prog, l: Leaves, n: nat, b: Body, t: Trace, a: Answer, i: nat)
    requires Replays(b, t, a) && i <= |t.keys| && RunBody(prog, l, n, b, []).Some?
    requires forall j :: 0 <= j < |t.keys| ==> Fresh(prog, l, t.keys[j], t.answers[j])
    ensures RunBody(prog, l, n, b, t.answers[..i]).Some?
    ensures i < |t.keys| ==> Eval(prog, l, n, t.keys[i]).Some?
  {
    if i == 0 {
      assert t.answers[..0] == [];
    } else {
      RunReads(prog, l, n, b, t, a, i - 1);
      assert b.step(t.answers[..i - 1]) == Ask(t.keys[i - 1]);
      var x := Eval(prog, l, n, t.keys[i - 1]).value;
      assert Fresh(prog, l, t.keys[i - 1], x);
      FreshUnique(prog, l, l, t.keys[i - 1], x, t.answers[i - 1]);
      assert t.answers[..i] == t.answers[..i - 1] + [x];
    }
    if i < |t.keys| { assert b.step(t.answers[..i]) == Ask(t.keys[i]); }
  }

  /** What an execution over fresh answers read has its answer at a lesser depth. */
  lemma ReadsEarlier(prog: Prog, l: Leaves, q: Key, t: Trace, a: Answer, i: nat)
    requires q.Query? && q.id in prog && Replays(prog[q.id], t, a) && i < |t.keys|
    requires forall j :: 0 <= j < |t.keys| ==> Fresh(prog, l, t.keys[j], t.answers[j])
    ensures MinDepth(prog, l, t.keys[i]) < MinDepth(prog, l, q)
  {
    FreshReplay(prog, l, q, t, a);
    var n: nat :| Eval(prog, l, n, q) == Some(a);
    MinDepthAt(prog, l, q, n);
    var m := MinDepth(prog, l, q);
    RunReads(prog, l, m - 1, prog[q.id], t, a, i);
    MinDepthAt(prog, l, t.keys[i], m - 1);
  }

  lemma {:induction false} DepthBound(prog: Prog, l: Leaves, ids: set<nat>) returns (top: nat)
    ensures forall i :: i in ids ==> MinDepth(prog, l, Query(i)) < top
  {
    top := 1;
    if ids != {} {
      var i :| i in ids;
      var m := DepthBound(prog, l, ids - {i});
      top := m + MinDepth(prog, l, Query(i)) + 1;
    }
  }

  /** A finite program has a deepest query. */
  lemma AllDepthsBelow(prog: Prog, l: Leaves) returns (top: nat)
    ensures forall i: nat {:trigger MinDepth(prog, l, Query(i))} :: MinDepth(prog, l, Query(i)) < top
  {
    top := DepthBound(prog, l, prog.Keys);
    top := top + 1;
    forall i: nat ensures MinDepth(prog, l, Query(i)) < top {
      if i !in prog {
        forall n: nat ensures Eval(prog, l, n, Query(i)).None? {}
      }
    }
  }
}
