/** Why a restore stops when something moved (`Overtaken`): the revision has to stand still while
    dependencies are looked at.

    `P` reads `D1` and then `D2`; `D1` reads the input `X`; `D2` reads `D1` and `X` and returns 0. The
    checkpoint was saved at X = 1. The new database set X = 1, asked for `D1`, set X = 2, and now asks for
    `P`: `D1` still holds 1 and is taken as it stands, and running `D2` brings `D1` to 2.
 */
module Drift {
  import opened Options
  import opened Programs
  import opened Graphs
  import opened SavedRecords
  import opened Steps
  import opened Nesting
  import opened Restores

  const X := Input(0)
  const D1 := Query(1)
  const D2 := Query(2)
  const P := Query(3)

  function FirstRead(h: seq<Answer>): Move {
    if h != [] && h[0].Val? then Done(h[0].v) else Done(0)
  }

  const BODY1: RawBody := RawBody((h: seq<Answer>) => if |h| == 0 then Ask(X) else FirstRead(h), 1)
  const BODY2: RawBody := RawBody((h: seq<Answer>) =>
    if |h| == 0 then Ask(D1) else if |h| == 1 then Ask(X) else Done(0), 2)
  const BODY3: RawBody := RawBody((h: seq<Answer>) =>
    if |h| == 0 then Ask(D1) else if |h| == 1 then Ask(D2) else FirstRead(h), 2)

  function Program(): Prog {
    assert Halts(BODY1) && Halts(BODY2) && Halts(BODY3);
    map[1 := BODY1, 2 := BODY2, 3 := BODY3]
  }

  function Setting(): Config {
    Config(Program(), (k: Key) => 0, (r: nat, v: int) => Val(v), None)
  }

  const SAVED: Saved := Saved(Val(1), false, map[D1 := Val(1), D2 := Val(0)])

  const X_RECORD: Record := Record(Val(2), 2, 2, [], false, 0, -1, false)
  const D1_RECORD: Record := Record(Val(1), 1, 1, [X], false, 0, 1, false)

  function Rank(i: nat): nat {
    if i == 2 then 1 else if i == 3 then 2 else 0
  }

  /** The request for `P` has just begun. */
  ghost function Before(): Graph {
    var recs := map[X := X_RECORD, D1 := D1_RECORD];
    var traces := map[D1 := Trace([X], [Val(1)])];
    Graph(2, 2, recs, {D1, P}, traces, Rank, 3, recs, traces, multiset{}, {}, map[P := SAVED.answer], 2)
  }

  const TRACE1: Trace := Trace([X], [Val(2)])
  const TRACE2: Trace := Trace([D1, X], [Val(2), Val(2)])
  const D1_RERUN: Record := Record(Val(2), 3, 3, [X], false, 0, 2, false)
  const D2_RUN: Record := Record(Val(0), 3, 3, [D1, X], false, 0, 2, false)

  /** `D1` has run, because its input moved; its new value moves the revision. */
  ghost function Midway(w: World): Graph {
    Committed(w, Before().(known := {D1, D2, P}), D1, TRACE1, D1_RERUN, true)
  }

  /** `D2`, which asked for it, has run too. */
  ghost function After(w: World): Graph {
    Committed(w, Midway(w), D2, TRACE2, D2_RUN, true)
  }

  lemma TraceBefore()
    ensures TraceOk(Setting(), Before(), D1) && Before().traces[D1] == Trace([X], [Val(1)])
  {
    var t := Before().traces[D1];
    assert t.answers[..0] == [] && t.answers[..1] == [Val(1)];
    assert t.keys[0] == X;
    assert Replays(BODY1, t, Val(1));
  }

  lemma BeforeInv(w: World)
    ensures Inv(Setting(), w, Before()) && Before().recs == map[X := X_RECORD, D1 := D1_RECORD]
  {
    hide TraceOk; hide Halts; hide Program;
    TraceBefore();
  }

  lemma BeforeOk(w: World)
    ensures Inv(Setting(), w, Before()) && Inv(Setting(), w, Before().(known := {D1, D2, P}))
    ensures Before().recs == map[X := X_RECORD, D1 := D1_RECORD]
  {
    hide Inv; hide Program; hide Halts;
    BeforeInv(w);
    LearnKeeps(Setting(), w, Before(), Before().(known := {D1, D2, P}));
  }

  /** Both runs are the engine's own steps. */
  lemma MidwayOk(w: World)
    ensures Inv(Setting(), w, Midway(w)) && Midway(w).rev == 3 && Midway(w).req == 2
    ensures Midway(w).recs == map[X := X_RECORD, D1 := D1_RERUN] && Midway(w).known == {D1, D2, P}
    ensures Midway(w).start == map[X := X_RECORD, D1 := D1_RECORD] && Midway(w).first == 2
  {
    BeforeOk(w);
    D1Runs(w);
    hide Inv; hide Executed; hide Reason;
    var g' := CommitStep(Setting(), w, Before().(known := {D1, D2, P}), D1, TRACE1, Val(2), D1_RERUN, true);
  }

  lemma StepsMade(w: World)
    ensures Step(w, Before(), Before().(known := {D1, D2, P}))
    ensures Step(w, Before().(known := {D1, D2, P}), Midway(w)) && Step(w, Midway(w), After(w))
  {
    BeforeOk(w);
    MidwayOk(w);
    D1Runs(w);
    D2Runs(w);
    hide Inv; hide Executed; hide Reason; hide Step; hide Program; hide Halts;
    var cfg, g := Setting(), Before().(known := {D1, D2, P});
    LearnKeeps(cfg, w, Before(), g);
    var g' := CommitStep(cfg, w, g, D1, TRACE1, Val(2), D1_RERUN, true);
    var g'' := CommitStep(cfg, w, Midway(w), D2, TRACE2, Val(0), D2_RUN, true);
  }

  lemma D1Runs(w: World)
    ensures var g := Before().(known := {D1, D2, P});
            Executed(Setting(), w, g, D1, TRACE1, Val(2), D1_RERUN) && Reason(w, g, D1)
  {
    BeforeOk(w);
    hide Inv;
    assert TRACE1.answers[..0] == [] && TRACE1.answers[..1] == [Val(2)];
    assert TRACE1.keys[0] == X && Moved(Before().(known := {D1, D2, P}), X, 1);
  }

  lemma D2Runs(w: World)
    ensures Executed(Setting(), w, Midway(w), D2, TRACE2, Val(0), D2_RUN) && Reason(w, Midway(w), D2)
  {
    MidwayOk(w);
    hide Inv; hide Midway;
    assert TRACE2.answers[..0] == [] && TRACE2.answers[..1] == [Val(2)] && TRACE2.answers[..2] == [Val(2), Val(2)];
    assert TRACE2.keys[0] == D1 && TRACE2.keys[1] == X;
  }

  lemma AfterOk(w: World)
    ensures Inv(Setting(), w, After(w)) && After(w).rev == 3 && After(w).req == 2
    ensures After(w).recs == map[X := X_RECORD, D1 := D1_RERUN, D2 := D2_RUN]
    ensures After(w).start == map[X := X_RECORD, D1 := D1_RECORD] && After(w).first == 2
  {
    MidwayOk(w);
    D2Runs(w);
    hide Inv; hide Midway; hide Executed; hide Reason;
    var g' := CommitStep(Setting(), w, Midway(w), D2, TRACE2, Val(0), D2_RUN, true);
  }

  lemma SavedIsSound()
    ensures SavedSound(Program(), P, SAVED)
  {
    var t := Trace([D1, D2], [Val(1), Val(0)]);
    assert t.answers[..0] == [] && t.answers[..1] == [Val(1)] && t.answers[..2] == t.answers;
    assert t.keys[0] == D1 && t.keys[1] == D2;
    assert Replays(Program()[3], t, Val(1)) && AnswersOf(t, SAVED.deps);
  }

  lemma FreshIsTwo(w: World)
    ensures Fresh(Program(), WorldLeaves(Setting(), w, map[X := 2]), P, Val(2))
  {
    var prog, l := Program(), WorldLeaves(Setting(), w, map[X := 2]);
    assert RunBody(prog, l, 0, BODY1, [Val(2)]) == Some(Val(2));
    assert Eval(prog, l, 1, D1) == Some(Val(2)) by { assert [] + [Val(2)] == [Val(2)]; }
    assert RunBody(prog, l, 1, BODY2, [Val(2), Val(2)]) == Some(Val(0));
    assert [Val(2)] + [Val(2)] == [Val(2), Val(2)] && [] + [Val(2)] == [Val(2)];
    assert RunBody(prog, l, 1, BODY2, [Val(2)]) == Some(Val(0));
    assert Eval(prog, l, 2, D2) == Some(Val(0));
    EvalMonotone(prog, l, l, 1, 2, D1);
    assert [Val(2)] + [Val(0)] == [Val(2), Val(0)];
    assert RunBody(prog, l, 2, BODY3, [Val(2), Val(0)]) == Some(Val(2));
    assert RunBody(prog, l, 2, BODY3, [Val(2)]) == Some(Val(2));
    assert Eval(prog, l, 3, P) == Some(Val(2));
  }

  lemma BothPass(w: World)
    ensures Passing(w, After(w), D1, 3) && Passing(w, After(w), D2, 3)
    ensures Carries(Before().recs, D1, Val(1)) && Carries(After(w).recs, D2, Val(0))
    ensures Carries(After(w).recs, D1, Val(2))
    ensures InputsOf(After(w).recs) == map[X := 2]
  {
    BeforeOk(w);
    AfterOk(w);
    hide Inv; hide After; hide Before; hide Program; hide Halts;
    assert InputsOf(After(w).recs).Keys == {X};
  }

  /** What is kept of the restore that stops: `D1` was good as it stood, `D2` once it had run. */
  ghost function Witness(w: World): Evidence {
    Evidence(Before(), map[D1 := Before(), D2 := After(w)], [])
  }

  lemma StepsThrough(w: World)
    ensures Step(w, Before(), After(w)) && Step(w, Before(), Before()) && Step(w, After(w), After(w))
  {
    StepsMade(w);
    hide Step; hide Midway; hide After; hide Before;
    StepTransitive(w, Before(), Before().(known := {D1, D2, P}), Midway(w));
    StepTransitive(w, Before(), Midway(w), After(w));
    StepSelf(w, Before());
    StepSelf(w, After(w));
  }

  /** Something was found changed. */
  lemma D1Shifted(w: World)
    ensures Shifted(w, After(w), D1)
  {
    AfterOk(w);
    MidwayOk(w);
    hide Inv; hide Midway;
  }

  lemma Stops(w: World)
    ensures StopOk(Setting(), w, After(w), map[P := SAVED], Overtaken(P), Witness(w))
  {
    BeforeOk(w);
    AfterOk(w);
    StepsThrough(w);
    D1Shifted(w);
    BothPass(w);
    hide Inv; hide Step; hide After; hide Shifted; hide Program; hide Passing; hide InputsOf; hide Setting;
    assert P !in Before().recs && SAVED.deps[D1] == Val(1);
  }

  /** The calls go down a rank. */
  lemma Ranked(w: World)
    ensures CallsDown(Program(), Rank, w, {X})
  {
    forall id, h | id in Program() && Program()[id].step(h).Ask?
      ensures CallOk(Program(), Rank, w, {X}, id, Program()[id].step(h).key)
    {}
  }

  /** Though the calls go down a rank, each dependency of `P` carried what was saved when it was looked at: `D1` before
      `D2` ran, `D2` after. Yet in a record stored then, neither would count as changed, and the value stored is not
      what a fresh database computes. */
  lemma DriftIsMissed(w: World, rec: Record)
    requires rec.answer == SAVED.answer && rec.verifiedAt == After(w).rev
    requires (forall d :: d in rec.deps <==> d in SAVED.deps)
    ensures Inv(Setting(), w, Before()) && Inv(Setting(), w, After(w)) && P !in After(w).recs
    ensures SavedSound(Program(), P, SAVED) && CallsDown(Program(), Rank, w, {X})
    ensures Carries(Before().recs, D1, SAVED.deps[D1]) && Carries(After(w).recs, D2, SAVED.deps[D2])
    ensures forall d :: d in rec.deps ==> Passing(w, After(w), d, rec.verifiedAt)
    ensures Fresh(Program(), WorldLeaves(Setting(), w, InputsOf(After(w).recs)), P, Val(2)) && rec.answer != Val(2)
    ensures Obstacle(Setting(), After(w).recs, 2, 3, map[P := SAVED], true, false, P) == Some(Overtaken(P))
    ensures StopOk(Setting(), w, After(w), map[P := SAVED], Overtaken(P), Witness(w))
  {
    hide Inv; hide Fresh; hide WorldLeaves; hide After; hide Before; hide SavedSound; hide Setting;
    hide Program; hide Passing; hide InputsOf; hide StopOk; hide CallsDown;
    BeforeOk(w);
    AfterOk(w);
    SavedIsSound();
    BothPass(w);
    FreshIsTwo(w);
    Stops(w);
    Ranked(w);
  }
}
