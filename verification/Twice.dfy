/** Why a restore stops when the query has come to have a record and depends on what always counts as
    changed (`Contradicted`): storing over it, the query runs a second time in the request.

    `Q` reads the resource `R`; if that is 1 it reads `D` and returns 1, otherwise it returns 5. `D` reads the
    resource `S` and returns 0; unless `S` is 1, it asks for `Q` first. Both were saved at R = 1 and S = 1. `R` has
    a record with the value 1, but can no longer be observed; `S` is 2 now. To restore `Q`, `D` is looked at first:
    `S` differs, so it runs and asks for `Q`, which is not restored, as `D` is running, and runs too. Then `R` still
    carries what was saved, and the saved record would be stored over the one just made.
 */
module Twice {
  import opened Options
  import opened Programs
  import opened Graphs
  import opened SavedRecords
  import opened Steps
  import opened Restores

  const R := Resource(0)
  const S := Resource(1)
  const Q := Query(1)
  const D := Query(2)

  const BODY_Q: RawBody := RawBody((h: seq<Answer>) =>
    if |h| == 0 then Ask(R) else if h[0] != Val(1) then Done(5) else if |h| == 1 then Ask(D) else Done(1), 2)
  const BODY_D: RawBody := RawBody((h: seq<Answer>) =>
    if |h| == 0 then Ask(S) else if h[0] == Val(1) then Done(0) else if |h| == 1 then Ask(Q) else Done(0), 2)

  function Program(): Prog {
    assert Halts(BODY_Q) && Halts(BODY_D);
    map[1 := BODY_Q, 2 := BODY_D]
  }

  function Setting(): Config {
    Config(Program(), (k: Key) => 0, (r: nat, v: int) => Val(v), None)
  }

  function Outside(): World {
    World((r: nat) => if r == 1 then Some(2) else None, (i: nat) => 0)
  }

  const SAVED_Q: Saved := Saved(Val(1), false, map[D := Val(0), R := Val(1)])
  const SAVED_D: Saved := Saved(Val(0), false, map[S := Val(1)])

  function Manifest(): Checkpoint {
    map[Q := SAVED_Q, D := SAVED_D]
  }

  const R_RECORD: Record := Record(Val(1), 0, 0, [], false, 1, 0, true)
  const S_RECORD: Record := Record(Val(2), 1, 1, [], false, 2, 1, false)
  const Q_RUN: Record := Record(Val(5), 1, 1, [R], false, 0, 1, false)
  const D_RUN: Record := Record(Val(0), 1, 1, [S, Q], false, 0, 1, false)
  const Q_STORED: Record := RestoredRecord(Val(1), 1, [D, R], -1)
  const Q_AGAIN: Record := Record(Val(5), 2, 2, [R], false, 0, 1, false)

  const SAVED_TRACE_Q: Trace := Trace([R, D], [Val(1), Val(0)])
  const SAVED_TRACE_D: Trace := Trace([S], [Val(1)])
  const TRACE_Q: Trace := Trace([R], [Unobservable])
  const TRACE_D: Trace := Trace([S, Q], [Val(2), Val(5)])

  /** The request for `Q` has begun. */
  ghost function Before(): Graph {
    var recs := map[R := R_RECORD];
    Graph(1, 1, recs, {Q, D}, map[], (i: nat) => 0, 1, recs, map[], multiset{}, {}, AnswersIn(Manifest()), 1)
  }

  /** `S` has been loaded. */
  ghost function WithS(): Graph {
    Before().(rev := 1, recs := Before().recs[S := S_RECORD])
  }

  /** `Q` has run. */
  ghost function WithQ(): Graph {
    Committed(Outside(), WithS(), Q, TRACE_Q, Q_RUN, true)
  }

  /** `D`, which asked for it, has run too. */
  ghost function WithD(): Graph {
    Committed(Outside(), WithQ(), D, TRACE_D, D_RUN, true)
  }

  /** With the saved record stored, `Q` is not settled any more. */
  ghost function Stored(): Graph {
    WithD().(recs := WithD().recs[Q := Q_STORED], traces := WithD().traces[Q := SAVED_TRACE_Q])
  }

  ghost function RanAgain(): Graph {
    Committed(Outside(), Stored(), Q, TRACE_Q, Q_AGAIN, true)
  }

  lemma OneRead(k: Key, a: Answer)
    ensures var t := Trace([k], [a]);
            && t.keys[0] == k && t.answers[..0] == [] && t.answers[..1] == [a] && forall d :: d in t.keys <==> d == k
  {}

  lemma TwoReads(k: Key, a: Answer, k': Key, a': Answer)
    ensures var t := Trace([k, k'], [a, a']);
            && t.keys[0] == k && t.keys[1] == k' && t.answers[..0] == [] && t.answers[..1] == [a]
            && t.answers[..2] == [a, a']
  {}

  lemma AllReplay()
    ensures Replays(BODY_Q, SAVED_TRACE_Q, Val(1)) && Replays(BODY_D, SAVED_TRACE_D, Val(0))
    ensures Replays(BODY_Q, TRACE_Q, Val(5)) && Replays(BODY_D, TRACE_D, Val(0))
  {
    TwoReads(R, Val(1), D, Val(0));
    OneRead(S, Val(1));
    OneRead(R, Unobservable);
    TwoReads(S, Val(2), Q, Val(5));
  }

  lemma ManifestSound()
    ensures AllSound(Program(), Manifest())
  {
    AllReplay();
    hide Replays; hide Halts;
    TwoReads(R, Val(1), D, Val(0));
    OneRead(S, Val(1));
    assert AnswersOf(SAVED_TRACE_Q, SAVED_Q.deps) && AnswersOf(SAVED_TRACE_D, SAVED_D.deps);
  }

  lemma BeforeOk()
    ensures Inv(Setting(), Outside(), Before())
  {
    hide Program; hide AnswersIn;
  }

  lemma WithSOk()
    ensures Inv(Setting(), Outside(), WithS()) && Step(Outside(), Before(), WithS())
    ensures WithS().recs == map[R := R_RECORD, S := S_RECORD]
  {
    BeforeOk();
    hide Inv; hide Program; hide AnswersIn; hide Step;
    var g := ResourceStep(Setting(), Outside(), Before(), S, 1, S_RECORD);
  }

  lemma WithQOk()
    ensures Inv(Setting(), Outside(), WithQ()) && Step(Outside(), WithS(), WithQ())
    ensures WithQ().recs == map[R := R_RECORD, S := S_RECORD, Q := Q_RUN]
    ensures WithQ().rev == 1 && WithQ().req == 1 && WithQ().runs[Q] == 1 && WithQ().known == {Q, D}
    ensures WithQ().start == map[R := R_RECORD] && WithQ().saved == AnswersIn(Manifest())
  {
    WithSOk();
    AllReplay();
    OneRead(R, Unobservable);
    hide Inv; hide Replays; hide Halts; hide AnswersIn; hide Step;
    var g := CommitStep(Setting(), Outside(), WithS(), Q, TRACE_Q, Val(5), Q_RUN, true);
  }

  lemma WithDOk()
    ensures Inv(Setting(), Outside(), WithD()) && Step(Outside(), WithQ(), WithD())
    ensures WithD().recs == map[R := R_RECORD, S := S_RECORD, Q := Q_RUN, D := D_RUN]
    ensures WithD().rev == 1 && WithD().req == 1 && WithD().runs[Q] == 1 && WithD().known == {Q, D}
    ensures WithD().start == map[R := R_RECORD] && WithD().saved == AnswersIn(Manifest())
  {
    WithQOk();
    AllReplay();
    TwoReads(S, Val(2), Q, Val(5));
    hide Inv; hide Replays; hide Halts; hide AnswersIn; hide WithQ; hide Step;
    var g := CommitStep(Setting(), Outside(), WithQ(), D, TRACE_D, Val(0), D_RUN, true);
  }

  /** What is kept of the restore: `D` was good once it had run, `R` as it stood. */
  ghost function Witness(): Evidence {
    Evidence(Before(), map[D := WithD(), R := WithD()], [])
  }

  lemma StepsThrough()
    ensures Step(Outside(), Before(), WithD()) && Step(Outside(), WithD(), WithD())
  {
    WithSOk();
    WithQOk();
    WithDOk();
    hide Inv; hide Step; hide WithQ; hide WithD; hide WithS;
    StepTransitive(Outside(), Before(), WithS(), WithQ());
    StepTransitive(Outside(), Before(), WithQ(), WithD());
    StepSelf(Outside(), WithD());
  }

  lemma Stops()
    ensures StopOk(Setting(), Outside(), WithD(), Manifest(), Contradicted(Q), Witness())
  {
    BeforeOk();
    WithDOk();
    StepsThrough();
    hide Inv; hide Step; hide WithD;
    assert Carries(WithD().recs, D, Val(0)) && Carries(WithD().recs, R, Val(1)) && Wavers(WithD().recs[R]);
    assert R in SAVED_Q.deps && Q !in Before().recs;
  }

  lemma StoredIs()
    ensures Stored().recs == map[R := R_RECORD, S := S_RECORD, Q := Q_STORED, D := D_RUN]
    ensures Stored().rev == 1 && Stored().req == 1 && Stored().known == {Q, D} && Stored().runs[Q] == 1
    ensures Stored().start == map[R := R_RECORD]
  {
    WithDOk();
    hide Inv; hide WithD; hide Step;
  }

  lemma RunsAgain()
    ensures Executed(Setting(), Outside(), Stored(), Q, TRACE_Q, Val(5), Q_AGAIN) && Reason(Outside(), Stored(), Q)
    ensures RanAgain().runs[Q] == 2
  {
    StoredIs();
    AllReplay();
    OneRead(R, Unobservable);
    hide Stored; hide Replays; hide Halts;
  }

  /** Every dependency carries the saved answer, and the query has run. Stored over, it is verified when it
      is met: `R` counts as changed, and it runs again. */
  lemma ContradictedRunsTwice()
    ensures AllSound(Program(), Manifest()) && Inv(Setting(), Outside(), Before()) && Inv(Setting(), Outside(), WithD())
    ensures StopOk(Setting(), Outside(), WithD(), Manifest(), Contradicted(Q), Witness())
    ensures Obstacle(Setting(), WithD().recs, 1, 1, Manifest(), false, false, Q) == Some(Contradicted(Q))
    ensures KindOf(D) < KindOf(R) && Before().runs[Q] == 0 && WithD().runs[Q] == 1
    ensures Executed(Setting(), Outside(), Stored(), Q, TRACE_Q, Val(5), Q_AGAIN) && Reason(Outside(), Stored(), Q)
    ensures RanAgain().runs[Q] == 2
  {
    BeforeOk();
    ManifestSound();
    WithDOk();
    Stops();
    RunsAgain();
    hide Inv; hide AllSound; hide Executed; hide Reason; hide WithD; hide RanAgain; hide StopOk; hide Step;
    assert Carries(WithD().recs, D, Val(0)) && Carries(WithD().recs, R, Val(1)) && Wavers(WithD().recs[R]);
    assert R in SAVED_Q.deps;
  }
}
