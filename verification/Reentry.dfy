/** Why a restore stops when the query is being executed for the first time (`Running`): the value the
    execution ends with is stored as if there had been none before.

    `E` reads the input `X`; if that is 1 it returns 1, otherwise it asks for `H` and returns 2. `Q` reads `E`
    and returns 1 if that is 1; otherwise it asks for `P` and returns 2. `K` is a copy of `Q`. `H` and `P` read
    the resource `Y` and, if that is 1, return `Q` and `K`. All were saved at X = 1 and Y = 1; now both are 2, and
    `E` still holds 1. The captures of `Q` do not pin `E`, those of `H` and `P` do. So `Q` runs, and reads `E`,
    which runs and asks for `H`; to restore `H`, its dependency `Q` is looked at first and restored. `Y` differs, so
    `H` runs. Once `E` has returned, `Q` asks for `P`, and to restore `P`, `K` is restored over `Q`; `P` runs too.
 */
module Reentry {
  import opened Options
  import opened Programs
  import opened Graphs
  import opened SavedRecords
  import opened Steps
  import opened Restores

  const X := Input(0)
  const Y := Resource(0)
  const E := Query(1)
  const H := Query(2)
  const P := Query(3)
  const Q := Query(4)
  const K := Query(5)

  function Copied(h: seq<Answer>): Move
    requires h != []
  {
    if h[|h| - 1].Val? then Done(h[|h| - 1].v) else Raise
  }

  function Copy(k: Key): RawBody {
    RawBody((h: seq<Answer>) => if |h| == 0 then Ask(k) else Copied(h), 1)
  }

  /** Returns `k` if the resource `Y` is 1, and 0 otherwise. */
  function Gate(k: Key): RawBody {
    RawBody((h: seq<Answer>) =>
      if |h| == 0 then Ask(Y) else if h[0] != Val(1) then Done(0) else if |h| == 1 then Ask(k) else Copied(h), 2)
  }

  /** Returns 1 if `k` is 1, and 2 otherwise, having asked for `other`. */
  function Branch(k: Key, other: Key): RawBody {
    RawBody((h: seq<Answer>) =>
      if |h| == 0 then Ask(k) else if h[0] == Val(1) then Done(1) else if |h| == 1 then Ask(other) else Done(2), 2)
  }

  function Program(): Prog {
    assert Halts(Branch(X, H)) && Halts(Gate(Q)) && Halts(Gate(K)) && Halts(Branch(E, P)) && Halts(Copy(Q));
    map[1 := Branch(X, H), 2 := Gate(Q), 3 := Gate(K), 4 := Branch(E, P), 5 := Copy(Q)]
  }

  function Setting(): Config {
    Config(Program(), (k: Key) => 0, (r: nat, v: int) => Val(v), None)
  }

  const SAVED_Q: Saved := Saved(Val(1), false, map[E := Val(1)])
  const SAVED_K: Saved := Saved(Val(1), false, map[Q := Val(1)])
  const SAVED_H: Saved := Saved(Val(1), false, map[Q := Val(1), Y := Val(1)])
  const SAVED_P: Saved := Saved(Val(1), false, map[K := Val(1), Y := Val(1)])

  function Manifest(): Checkpoint {
    map[Q := SAVED_Q, K := SAVED_K, H := SAVED_H, P := SAVED_P]
  }

  /** What the captures of each root pin. */
  function Pinned(root: Key): set<Key> {
    if root == Q then {P, K, Y} else {E, Q, K, Y}
  }

  function Outside(): World {
    World((r: nat) => Some(2), (i: nat) => 0)
  }

  const INPUT: Record := Record(Val(2), 2, 2, [], false, 0, -1, false)
  const E_OLD: Record := Record(Val(1), 1, 1, [X], false, 0, 1, false)
  const Q_OLD: Record := RestoredRecord(Val(1), 2, [E], -1)
  const Y_RECORD: Record := Record(Val(2), 2, 2, [], false, 2, 2, false)
  const H_RUN: Record := Record(Val(0), 2, 2, [Y], false, 0, 2, false)
  const E_RUN: Record := Record(Val(2), 3, 3, [X, H], false, 0, 2, false)
  const K_OLD: Record := RestoredRecord(Val(1), 3, [Q], -1)
  const P_RUN: Record := Record(Val(0), 3, 3, [Y], false, 0, 2, false)
  const Q_RUN: Record := Record(Val(2), 3, 3, [E, P], false, 0, 2, false)

  const ONE_X: Trace := Trace([X], [Val(1)])
  const ONE_E: Trace := Trace([E], [Val(1)])
  const ONE_Q: Trace := Trace([Q], [Val(1)])
  const ONE_H: Trace := Trace([Y, Q], [Val(1), Val(1)])
  const ONE_P: Trace := Trace([Y, K], [Val(1), Val(1)])
  const TWO_Y: Trace := Trace([Y], [Val(2)])
  const TWO_X: Trace := Trace([X, H], [Val(2), Val(0)])
  const TWO_E: Trace := Trace([E, P], [Val(2), Val(0)])

  function Rank(i: nat): nat {
    0
  }

  /** `Q` is running, and `E` too. */
  ghost function Before(): Graph {
    var recs, traces := map[X := INPUT, E := E_OLD], map[E := ONE_X];
    Graph(2, 2, recs, {E, H, P, Q}, traces, Rank, 1, recs, traces, multiset{}, {}, AnswersIn(Manifest()), 2)
  }

  ghost function WithQ(): Graph {
    RestoredOnTop(Before(), Q, ONE_E, Q_OLD)
  }

  /** `Y` is loaded. */
  ghost function WithY(): Graph {
    WithQ().(rev := 2, recs := WithQ().recs[Y := Y_RECORD])
  }

  ghost function WithH(): Graph {
    Committed(Outside(), WithY(), H, TWO_Y, H_RUN, true)
  }

  ghost function WithE(): Graph {
    Committed(Outside(), WithH(), E, TWO_X, E_RUN, true)
  }

  ghost function WithK(): Graph {
    RestoredOnTop(WithE(), K, ONE_Q, K_OLD)
  }

  ghost function WithP(): Graph {
    Committed(Outside(), WithK(), P, TWO_Y, P_RUN, true)
  }

  /** The execution of `Q` ends. It began when `Q` had no record, so its value lands as a first one. */
  ghost function Ended(): Graph {
    WithP().(recs := WithP().recs[Q := Q_RUN])
  }

  lemma OneRead(k: Key, a: Answer)
    ensures var t := Trace([k], [a]);
            && t.keys[0] == k && t.answers[..0] == [] && t.answers[..1] == [a] && forall d :: d in t.keys <==> d == k
  {}

  lemma TwoReads(k: Key, a: Answer, k': Key, a': Answer)
    ensures var t := Trace([k, k'], [a, a']);
            && t.keys[0] == k && t.keys[1] == k' && t.answers[..0] == [] && t.answers[..1] == [a]
            && t.answers[..2] == [a, a']
  {}

  lemma AllReplay()
    ensures Replays(Branch(X, H), ONE_X, Val(1)) && Replays(Branch(E, P), ONE_E, Val(1))
    ensures Replays(Copy(Q), ONE_Q, Val(1)) && Replays(Gate(Q), TWO_Y, Val(0)) && Replays(Gate(K), TWO_Y, Val(0))
    ensures Replays(Branch(X, H), TWO_X, Val(2)) && Replays(Branch(E, P), TWO_E, Val(2))
    ensures Replays(Gate(Q), ONE_H, Val(1)) && Replays(Gate(K), ONE_P, Val(1))
  {
    OneRead(X, Val(1));
    OneRead(E, Val(1));
    OneRead(Q, Val(1));
    OneRead(Y, Val(2));
    TwoReads(X, Val(2), H, Val(0));
    TwoReads(E, Val(2), P, Val(0));
    TwoReads(Y, Val(1), Q, Val(1));
    TwoReads(Y, Val(1), K, Val(1));
  }

  lemma QAndKSound()
    ensures SavedSound(Program(), Q, SAVED_Q) && SavedSound(Program(), K, SAVED_K)
  {
    AllReplay();
    hide Replays; hide Halts;
    OneRead(E, Val(1));
    OneRead(Q, Val(1));
    assert AnswersOf(ONE_E, SAVED_Q.deps) && AnswersOf(ONE_Q, SAVED_K.deps);
  }

  lemma HAndPSound()
    ensures SavedSound(Program(), H, SAVED_H) && SavedSound(Program(), P, SAVED_P)
  {
    AllReplay();
    hide Replays; hide Halts;
    TwoReads(Y, Val(1), Q, Val(1));
    TwoReads(Y, Val(1), K, Val(1));
    assert AnswersOf(ONE_H, SAVED_H.deps) && AnswersOf(ONE_P, SAVED_P.deps);
  }

  lemma ManifestSound()
    ensures AllSound(Program(), Manifest())
  {
    QAndKSound();
    HAndPSound();
    hide SavedSound; hide Program;
  }

  lemma TraceBefore()
    ensures TraceOk(Setting(), Before(), E) && Before().traces[E] == ONE_X
  {
    AllReplay();
    OneRead(X, Val(1));
    hide Replays; hide Halts;
  }

  lemma PartsBefore()
    ensures forall k :: k in Before().recs ==> StampsOk(Before(), k) && SinceOk(Outside(), Before(), k)
    ensures forall q :: RunOk(Outside(), Before(), q)
    ensures KnownOk(Before(), E) && Before().recs.Keys == {X, E} && BumpOk(Outside(), Before())
    ensures EdgeOk(Setting(), Before(), E, X, Val(1)) && ClosedOk(Outside(), Before(), E, X, Val(1))
    ensures CurrentOk(Setting(), Before(), E, X, Val(1))
  {
    hide AnswersIn; hide Program;
  }

  lemma BeforeOk()
    ensures Inv(Setting(), Outside(), Before())
  {
    TraceBefore();
    PartsBefore();
    OneRead(X, Val(1));
    hide TraceOk; hide Halts; hide Program; hide AnswersIn; hide RunOk; hide SinceOk; hide StampsOk;
    hide EdgeOk; hide ClosedOk; hide CurrentOk; hide BumpOk; hide KnownOk; hide Manifest;
  }

  lemma WithQOk()
    ensures Inv(Setting(), Outside(), WithQ()) && WithQ().recs == map[X := INPUT, E := E_OLD, Q := Q_OLD]
    ensures WithQ().rev == 2 && WithQ().req == 2 && WithQ().known == {E, H, P, Q}
    ensures WithQ().start == Before().recs && WithQ().saved == AnswersIn(Manifest()) && WithQ().blind == {Q}
  {
    BeforeOk();
    QRestorable();
    hide Inv; hide Replays; hide Halts; hide Restorable; hide Step; hide Grows; hide Manifest; hide AnswersIn;
    var g' := RestoreStep(Setting(), Outside(), Before(), Q, ONE_E, Q_OLD);
  }

  lemma QRestorable()
    ensures Restorable(Setting(), Outside(), Before(), Q, ONE_E, Q_OLD)
  {
    AllReplay();
    SavedAnswers();
    hide Replays; hide Halts; hide Restorable; hide AnswersIn; hide Manifest;
    OneReadRestorable(Setting(), Outside(), Before(), Q, E, Val(1), Val(1));
  }

  lemma WithYOk()
    ensures Inv(Setting(), Outside(), WithY())
    ensures WithY().recs == map[X := INPUT, E := E_OLD, Q := Q_OLD, Y := Y_RECORD]
    ensures WithY().rev == 2 && WithY().req == 2 && WithY().known == {E, H, P, Q}
    ensures WithY().start == Before().recs && WithY().saved == AnswersIn(Manifest()) && WithY().blind == {Q}
  {
    WithQOk();
    hide Inv; hide WithQ; hide Program; hide AnswersIn;
    var g := ResourceStep(Setting(), Outside(), WithQ(), Y, 2, Y_RECORD);
  }

  lemma HRuns()
    ensures Executed(Setting(), Outside(), WithY(), H, TWO_Y, Val(0), H_RUN) && Reason(Outside(), WithY(), H)
  {
    WithYOk();
    AllReplay();
    OneRead(Y, Val(2));
    hide Inv; hide Replays; hide Halts; hide WithY; hide AnswersIn;
  }

  lemma WithHOk()
    ensures Inv(Setting(), Outside(), WithH())
    ensures WithH().recs == map[X := INPUT, Y := Y_RECORD, E := E_OLD, Q := Q_OLD, H := H_RUN]
    ensures WithH().rev == 2 && WithH().req == 2 && WithH().known == {E, H, P, Q}
    ensures WithH().start == Before().recs && WithH().saved == AnswersIn(Manifest()) && WithH().blind == {Q}
  {
    WithYOk();
    HRuns();
    hide Inv; hide Replays; hide Halts; hide WithY; hide AnswersIn; hide Executed; hide Reason; hide Change;
    var g' := CommitStep(Setting(), Outside(), WithY(), H, TWO_Y, Val(0), H_RUN, true);
  }

  lemma EReason()
    ensures Reason(Outside(), WithH(), E)
  {
    WithHOk();
    hide Inv; hide WithH; hide AnswersIn; hide Change;
    assert Moved(WithH(), X, 1) && Checked(Outside(), WithH(), X) && X in WithH().start[E].deps;
  }

  lemma ERuns()
    ensures Executed(Setting(), Outside(), WithH(), E, TWO_X, Val(2), E_RUN) && Reason(Outside(), WithH(), E)
  {
    EReason();
    WithHOk();
    AllReplay();
    TwoReads(X, Val(2), H, Val(0));
    hide Inv; hide Replays; hide Halts; hide WithH; hide AnswersIn; hide Reason; hide Change;
  }

  lemma WithEOk()
    ensures Inv(Setting(), Outside(), WithE())
    ensures WithE().recs == map[X := INPUT, Y := Y_RECORD, E := E_RUN, Q := Q_OLD, H := H_RUN]
    ensures WithE().rev == 3 && WithE().req == 2 && WithE().known == {E, H, P, Q}
    ensures WithE().start == Before().recs && WithE().saved == AnswersIn(Manifest())
  {
    WithHOk();
    ERuns();
    hide Inv; hide Replays; hide Halts; hide WithH; hide AnswersIn; hide Executed; hide Reason;
    var g' := CommitStep(Setting(), Outside(), WithH(), E, TWO_X, Val(2), E_RUN, true);
  }

  lemma KRestorable()
    ensures Restorable(Setting(), Outside(), WithE(), K, ONE_Q, K_OLD)
  {
    WithEOk();
    AllReplay();
    SavedAnswers();
    hide Inv; hide Replays; hide Halts; hide WithE; hide Restorable; hide AnswersIn; hide Manifest;
    OneReadRestorable(Setting(), Outside(), WithE(), K, Q, Val(1), Val(1));
  }

  lemma SavedAnswers()
    ensures var saved := AnswersIn(Manifest()); K in saved && saved[K] == Val(1) && Q in saved && saved[Q] == Val(1)
  {}

  lemma WithKOk()
    ensures Inv(Setting(), Outside(), WithK())
    ensures WithK().recs == map[X := INPUT, Y := Y_RECORD, E := E_RUN, Q := Q_OLD, H := H_RUN, K := K_OLD]
    ensures WithK().rev == 3 && WithK().req == 2 && WithK().known == {E, H, P, Q}
    ensures WithK().start == Before().recs
  {
    WithEOk();
    KRestorable();
    hide Inv; hide Replays; hide Halts; hide WithE; hide Restorable; hide Step; hide Grows;
    var g' := RestoreStep(Setting(), Outside(), WithE(), K, ONE_Q, K_OLD);
  }

  lemma WithPOk()
    ensures Executed(Setting(), Outside(), WithK(), P, TWO_Y, Val(0), P_RUN)
    ensures WithP().recs == map[X := INPUT, Y := Y_RECORD, E := E_RUN, Q := Q_OLD, H := H_RUN, K := K_OLD, P := P_RUN]
    ensures WithP().rev == 3 && WithP().req == 2
  {
    WithKOk();
    AllReplay();
    OneRead(Y, Val(2));
    hide Inv; hide Replays; hide Halts; hide WithK;
  }

  /** What `Q` read is settled, and what it returns lands where a first execution lands. */
  lemma QEnds()
    ensures Replays(Program()[4], TWO_E, Val(2))
    ensures Settled(Outside(), WithP(), E) && Now(Outside(), WithP(), E) == Val(2)
    ensures Settled(Outside(), WithP(), P) && Now(Outside(), WithP(), P) == Val(0)
    ensures Q_RUN == Landed(Dropped(WithP(), Q), Q, Val(2), [E, P], false)
  {
    WithPOk();
    AllReplay();
    hide WithP; hide Replays; hide Halts; hide Executed;
  }

  lemma EndedIs()
    ensures var g := Ended();
            && Q in g.recs && g.recs[Q] == Q_RUN && K in g.recs && g.recs[K] == K_OLD && g.rev == 3 && g.req == 2
  {
    WithPOk();
    hide WithP; hide Executed; hide RestoredRecord;
    var recs := WithP().recs;
    assert K in recs && recs[K] == K_OLD;
  }

  lemma KPasses()
    ensures Verifiable(Outside(), Ended(), K) && Ended().recs[K].answer == Val(1)
  {
    EndedIs();
    hide Ended;
  }

  lemma InputsEnded()
    ensures InputsOf(Ended().recs) == map[X := 2]
  {
    WithKOk();
    InputsKept(Setting(), Outside(), WithK());
    InputsBefore();
    hide Inv; hide WithK;
    QueriesAside(WithK().recs, P, P_RUN);
    QueriesAside(WithP().recs, Q, Q_RUN);
    hide InputsOf;
  }

  lemma InputsBefore()
    ensures InputsOf(Before().recs) == map[X := 2]
  {
    assert InputsOf(Before().recs).Keys == {X};
  }

  lemma QueriesAside(recs: map<Key, Record>, q: Key, rec: Record)
    requires q.Query?
    ensures InputsOf(recs[q := rec]) == InputsOf(recs)
  {}

  lemma FreshIsTwo()
    ensures Fresh(Program(), WorldLeaves(Setting(), Outside(), map[X := 2]), K, Val(2))
  {
    var prog, l := Program(), WorldLeaves(Setting(), Outside(), map[X := 2]);
    assert [] + [Val(2)] == [Val(2)] && [Val(2)] + [Val(0)] == [Val(2), Val(0)];
    assert WorldAnswer(Setting(), Outside(), Y) == Val(2);
    assert Eval(prog, l, 0, Y) == Some(Val(2));
    assert RunBody(prog, l, 0, prog[2], [Val(2)]) == Some(Val(0));
    assert Eval(prog, l, 1, H) == Some(Val(0));
    assert RunBody(prog, l, 0, prog[3], [Val(2)]) == Some(Val(0));
    assert Eval(prog, l, 1, P) == Some(Val(0));
    assert RunBody(prog, l, 1, prog[1], [Val(2), Val(0)]) == Some(Val(2));
    assert RunBody(prog, l, 1, prog[1], [Val(2)]) == Some(Val(2));
    assert Eval(prog, l, 2, E) == Some(Val(2));
    EvalMonotone(prog, l, l, 1, 2, P);
    assert RunBody(prog, l, 2, prog[4], [Val(2), Val(0)]) == Some(Val(2));
    assert RunBody(prog, l, 2, prog[4], [Val(2)]) == Some(Val(2));
    assert Eval(prog, l, 3, Q) == Some(Val(2));
    assert RunBody(prog, l, 3, prog[5], [Val(2)]) == Some(Val(2));
    assert Eval(prog, l, 4, K) == Some(Val(2));
  }

  /** What is kept of the restore that stops: `Q` is running, and `E` on top of it. */
  ghost function Witness(): Evidence {
    Evidence(Before(), map[E := Before()], [Q, E])
  }

  lemma PinsDiffer()
    ensures E !in Pinned(Q) && {E, Q, K, Y} <= Pinned(H) * Pinned(P) && KindOf(Q) == KindOf(K) < KindOf(Y)
  {}

  lemma Stops()
    ensures Obstacle(Setting(), Before().recs, 2, 2, Manifest(), false, true, Q) == Some(Running(Q))
    ensures StopOk(Setting(), Outside(), Before(), Manifest(), Running(Q), Witness())
  {
    BeforeOk();
    StepSelf(Outside(), Before());
    hide Inv; hide Step;
    assert Carries(Before().recs, E, Val(1)) && Witness().stack[0] == Q;
  }

  /** Up to the end of the execution of `Q` every step keeps the invariant. After it `K` passes verification
      and is not what a fresh database computes. */
  lemma RunningIsStale()
    ensures AllSound(Program(), Manifest()) && Inv(Setting(), Outside(), Before()) && Inv(Setting(), Outside(), WithK())
    ensures E !in Pinned(Q) && {E, Q, K, Y} <= Pinned(H) * Pinned(P) && KindOf(Q) == KindOf(K) < KindOf(Y)
    ensures Obstacle(Setting(), Before().recs, 2, 2, Manifest(), false, true, Q) == Some(Running(Q))
    ensures StopOk(Setting(), Outside(), Before(), Manifest(), Running(Q), Witness())
    ensures Executed(Setting(), Outside(), WithK(), P, TWO_Y, Val(0), P_RUN)
    ensures Replays(Program()[4], TWO_E, Val(2))
    ensures Settled(Outside(), WithP(), E) && Now(Outside(), WithP(), E) == Val(2)
    ensures Settled(Outside(), WithP(), P) && Now(Outside(), WithP(), P) == Val(0)
    ensures Q_RUN == Landed(Dropped(WithP(), Q), Q, Val(2), [E, P], false)
    ensures Verifiable(Outside(), Ended(), K) && Ended().recs[K].answer == Val(1)
    ensures Fresh(Program(), WorldLeaves(Setting(), Outside(), InputsOf(Ended().recs)), K, Val(2))
  {
    ManifestSound();
    BeforeOk();
    WithKOk();
    WithPOk();
    QEnds();
    KPasses();
    InputsEnded();
    FreshIsTwo();
    Stops();
    PinsDiffer();
    hide StopOk; hide Obstacle; hide Pinned; hide KindOf; hide Before; hide Manifest; hide Setting;
    hide InputsOf; hide Inv; hide AllSound; hide Executed; hide Replays; hide Settled; hide Now;
    hide Verifiable; hide Fresh; hide WorldLeaves; hide WithP; hide Ended; hide WithK; hide Program;
    hide Landed;
  }
}
