/** Why a request stops when a query that raised is to be taken back while another record was restored over
    it (`Discarded`).

    `Q` reads `E`, a copy of the input `X`, and returns 1 if that is 1; otherwise it reads `P` and returns 2.
    `P` reads the resource `Z` and returns `K` if that is 1; otherwise it raises or not, by untracked state.
    `K` is a copy of `Q`. All were saved at X = 1 and Z = 1. With `E` still at 1, and X and Z at 2, `Q` is asked for
    and restored. To verify it `E` runs, then `Q` runs, which asks for `P`. To restore `P`, its dependency `K` is
    looked at first and restored over `Q`; but `Z` differs, so `P` runs and raises. So does `Q`, and its record is
    dropped.
 */
module Dangling {
  import opened Options
  import opened Programs
  import opened Graphs
  import opened SavedRecords
  import opened Steps
  import opened Restores
  import opened Requests

  const X := Input(0)
  const Z := Resource(0)
  const E := Query(1)
  const P := Query(2)
  const Q := Query(3)
  const K := Query(4)

  function Copied(h: seq<Answer>): Move
    requires h != []
  {
    if h[0].Val? then Done(h[0].v) else Raise
  }

  function Copy(k: Key): RawBody {
    RawBody((h: seq<Answer>) => if |h| == 0 then Ask(k) else Copied(h), 1)
  }

  const BODY_P: RawBody := RawBody((h: seq<Answer>) =>
    if |h| == 0 then Ask(Z)
    else if |h| == 1 then Ask(if h[0] == Val(1) then K else Ambient(0))
    else if h[0] == Val(1) then Copied(h[1..])
    else if h[1] == Val(0) then Raise
    else Done(0), 2)

  const BODY_Q: RawBody := RawBody((h: seq<Answer>) =>
    if |h| == 0 then Ask(E) else if h[0] == Val(1) then Done(1) else if |h| == 1 then Ask(P) else Done(2), 2)

  function Program(): Prog {
    assert Halts(Copy(X)) && Halts(BODY_P) && Halts(BODY_Q) && Halts(Copy(Q));
    map[1 := Copy(X), 2 := BODY_P, 3 := BODY_Q, 4 := Copy(Q)]
  }

  function Setting(): Config {
    Config(Program(), (k: Key) => 0, (r: nat, v: int) => Val(v), None)
  }

  function Outside(v: Value): World {
    World((r: nat) => Some(2), (i: nat) => v)
  }

  const SAVED_Q: Saved := Saved(Val(1), false, map[E := Val(1)])
  const SAVED_K: Saved := Saved(Val(1), false, map[Q := Val(1)])
  const SAVED_P: Saved := Saved(Val(1), false, map[K := Val(1), Z := Val(1)])

  function Manifest(): Checkpoint {
    map[Q := SAVED_Q, K := SAVED_K, P := SAVED_P]
  }

  const INPUT: Record := Record(Val(2), 2, 2, [], false, 0, -1, false)
  const E_OLD: Record := Record(Val(1), 1, 1, [X], false, 0, 1, false)
  const E_NEW: Record := Record(Val(2), 3, 3, [X], false, 0, 2, false)
  const E_KEPT: Record := Record(Val(2), 3, 3, [X], false, 0, 3, false)
  const Q_OLD: Record := RestoredRecord(Val(1), 2, [E], -1)
  const Q_NEW: Record := Record(Val(2), 3, 3, [E, P], false, 0, 3, false)
  const K_OLD: Record := RestoredRecord(Val(1), 3, [Q], -1)
  const Z_NEW: Record := Record(Val(2), 3, 3, [], false, 2, 2, false)
  const Z_KEPT: Record := Record(Val(2), 3, 3, [], false, 2, 3, false)
  const P_NEW: Record := Record(Val(0), 3, 3, [Z], true, 0, 3, false)

  function Rank(i: nat): nat {
    0
  }

  /** The request for `Q` has begun, and its query object is at hand. */
  ghost function Before(): Graph {
    var recs, traces := map[X := INPUT, E := E_OLD], map[E := Trace([X], [Val(1)])];
    Graph(2, 2, recs, {E, Q}, traces, Rank, 1, recs, traces, multiset{}, {}, AnswersIn(Manifest()), 2)
  }

  /** `Q` is restored over `E`. */
  ghost function WithQ(): Graph {
    RestoredOnTop(Before(), Q, Trace([E], [Val(1)]), Q_OLD)
  }

  /** `E` has run. */
  ghost function WithE(w: World): Graph {
    Committed(w, WithQ(), E, Trace([X], [Val(2)]), E_NEW, true)
  }

  /** `K` is restored over `Q`, which is running. */
  ghost function WithK(w: World): Graph {
    RestoredOnTop(WithE(w), K, Trace([Q], [Val(1)]), K_OLD)
  }

  /** `Z` is loaded. */
  ghost function WithZ(w: World): Graph {
    WithK(w).(rev := 3, recs := WithK(w).recs[Z := Z_NEW])
  }

  /** `Q` is dropped, and the next request begins. */
  ghost function BegunAgain(w: World): Graph {
    Begun(Dropped(WithZ(w), Q)).(known := {E, P, Q, K})
  }

  /** `E` is verified. */
  ghost function Next(w: World): Graph {
    AfterVerify(BegunAgain(w), E)
  }

  /** `Z` reads as it did. */
  ghost function Probed(w: World): Graph {
    Next(w).(recs := Next(w).recs[Z := Z_KEPT])
  }

  ghost function WithP(w: World, w': World): Graph {
    Committed(w', Probed(w), P, Trace([Z, Ambient(0)], [Val(2), Val(1)]), P_NEW, true)
  }

  /** `P` and `Q` have run for the first time as far as the records tell. */
  ghost function Again(w: World, w': World): Graph {
    Committed(w', WithP(w, w'), Q, Trace([E, P], [Val(2), Val(0)]), Q_NEW, true)
  }

  lemma CopyReplays(k: Key, v: Value)
    ensures Replays(Copy(k), Trace([k], [Val(v)]), Val(v))
  {
    var t := Trace([k], [Val(v)]);
    assert t.answers[..0] == [] && t.answers[..1] == [Val(v)];
    assert t.keys[0] == k;
  }

  lemma OneRead(k: Key, a: Answer)
    ensures var t := Trace([k], [a]); t.keys[0] == k && t.answers[0] == a && forall d :: d in t.keys <==> d == k
  {}

  lemma QReplays()
    ensures Replays(BODY_Q, Trace([E], [Val(1)]), Val(1))
    ensures Replays(BODY_Q, Trace([E, P], [Val(2), Val(0)]), Val(2))
  {
    var t, t' := Trace([E], [Val(1)]), Trace([E, P], [Val(2), Val(0)]);
    assert t.answers[..0] == [] && t.answers[..1] == [Val(1)] && t.keys[0] == E;
    assert t'.answers[..0] == [] && t'.answers[..1] == [Val(2)] && t'.answers[..2] == [Val(2), Val(0)];
    assert t'.keys[0] == E && t'.keys[1] == P;
  }

  lemma PReplays()
    ensures Replays(BODY_P, Trace([Z, K], [Val(1), Val(1)]), Val(1))
    ensures Replays(BODY_P, Trace([Z, Ambient(0)], [Val(2), Val(1)]), Val(0))
  {
    var t, t' := Trace([Z, K], [Val(1), Val(1)]), Trace([Z, Ambient(0)], [Val(2), Val(1)]);
    assert t.answers[..0] == [] && t.answers[..1] == [Val(1)] && t.answers[..2] == [Val(1), Val(1)];
    assert t.keys[0] == Z && t.keys[1] == K && [Val(1), Val(1)][1..] == [Val(1)];
    assert t'.answers[..0] == [] && t'.answers[..1] == [Val(2)] && t'.answers[..2] == [Val(2), Val(1)];
    assert t'.keys[0] == Z && t'.keys[1] == Ambient(0);
  }

  lemma ManifestSound()
    ensures AllSound(Program(), Manifest())
  {
    hide Replays; hide Halts;
    CopyReplays(Q, 1);
    QReplays();
    PReplays();
    OneRead(E, Val(1));
    OneRead(Q, Val(1));
    var t := Trace([Z, K], [Val(1), Val(1)]);
    assert t.keys[0] == Z && t.keys[1] == K;
    assert AnswersOf(Trace([E], [Val(1)]), SAVED_Q.deps) && AnswersOf(Trace([Q], [Val(1)]), SAVED_K.deps);
    assert AnswersOf(t, SAVED_P.deps);
  }

  lemma TraceBefore()
    ensures TraceOk(Setting(), Before(), E) && Before().traces[E] == Trace([X], [Val(1)])
  {
    hide Replays; hide Halts;
    CopyReplays(X, 1);
    OneRead(X, Val(1));
  }

  lemma BeforeOk(w: World)
    ensures Inv(Setting(), w, Before())
  {
    hide TraceOk; hide Halts; hide Program; hide AnswersIn; hide RunOk; hide SinceOk; hide StampsOk;
    hide EdgeOk; hide ClosedOk; hide CurrentOk; hide BumpOk; hide KnownOk; hide Manifest;
    TraceBefore();
    RecordsBefore(w);
    EdgeBefore(w);
  }

  lemma EdgeBefore(w: World)
    ensures EdgeOk(Setting(), Before(), E, X, Val(1)) && ClosedOk(w, Before(), E, X, Val(1))
    ensures CurrentOk(Setting(), Before(), E, X, Val(1)) && BumpOk(w, Before())
  {
    hide AnswersIn; hide Program;
  }

  lemma RecordsBefore(w: World)
    ensures forall k :: k in Before().recs ==> StampsOk(Before(), k) && SinceOk(w, Before(), k)
    ensures KnownOk(Before(), E) && Before().recs.Keys == {X, E}
    ensures forall q :: RunOk(w, Before(), q)
  {
    hide AnswersIn; hide Program;
  }

  lemma SavedAnswers()
    ensures var saved := AnswersIn(Manifest()); K in saved && saved[K] == Val(1) && Q in saved && saved[Q] == Val(1)
  {}

  lemma WithQOk(w: World)
    ensures Inv(Setting(), w, WithQ()) && WithQ().recs == map[X := INPUT, E := E_OLD, Q := Q_OLD]
  {
    BeforeOk(w);
    QReplays();
    SavedAnswers();
    hide Inv; hide Replays; hide Halts; hide Restorable; hide Step; hide Grows; hide AnswersIn; hide Manifest;
    OneReadRestorable(Setting(), w, Before(), Q, E, Val(1), Val(1));
    var g' := RestoreStep(Setting(), w, Before(), Q, Trace([E], [Val(1)]), Q_OLD);
  }

  lemma WithEOk(w: World)
    ensures Inv(Setting(), w, WithE(w)) && WithE(w).recs == map[X := INPUT, E := E_NEW, Q := Q_OLD]
    ensures WithE(w).rev == 3 && WithE(w).req == 2 && WithE(w).saved == AnswersIn(Manifest())
  {
    WithQOk(w);
    hide Inv; hide Replays; hide Halts; hide AnswersIn; hide Executed; hide Reason;
    ERuns(w);
    var g' := CommitStep(Setting(), w, WithQ(), E, Trace([X], [Val(2)]), Val(2), E_NEW, true);
  }

  lemma ERuns(w: World)
    ensures Executed(Setting(), w, WithQ(), E, Trace([X], [Val(2)]), Val(2), E_NEW) && Reason(w, WithQ(), E)
  {
    CopyReplays(X, 2);
    OneRead(X, Val(2));
    hide Replays; hide Halts; hide AnswersIn; hide Inv;
    assert Moved(WithQ(), X, 1) && Checked(w, WithQ(), X) && X in WithQ().start[E].deps;
  }

  lemma WithKOk(w: World)
    ensures Inv(Setting(), w, WithK(w))
    ensures WithK(w).recs == map[X := INPUT, E := E_NEW, Q := Q_OLD, K := K_OLD]
    ensures WithK(w).rev == 3 && WithK(w).req == 2
  {
    WithEOk(w);
    CopyReplays(Q, 1);
    SavedAnswers();
    hide Inv; hide Replays; hide Halts; hide Restorable; hide Step; hide Grows; hide AnswersIn; hide Manifest;
    hide WithE;
    OneReadRestorable(Setting(), w, WithE(w), K, Q, Val(1), Val(1));
    var g' := RestoreStep(Setting(), w, WithE(w), K, Trace([Q], [Val(1)]), K_OLD);
  }

  lemma WithZOk()
    ensures var w, g := Outside(0), WithZ(Outside(0));
            && Inv(Setting(), w, g) && g.recs == map[X := INPUT, E := E_NEW, Q := Q_OLD, K := K_OLD, Z := Z_NEW]
            && g.rev == 3 && g.req == 2
  {
    WithKOk(Outside(0));
    hide Inv; hide WithK; hide Program;
    var g := ResourceStep(Setting(), Outside(0), WithK(Outside(0)), Z, 3, Z_NEW);
  }

  lemma NextIs()
    ensures var g := Probed(Outside(0));
            && g.recs == map[X := INPUT, E := E_KEPT, K := K_OLD, Z := Z_KEPT]
            && g.rev == 3 && g.req == 3 && g.known == {E, P, Q, K} && P !in g.start && Q !in g.start
  {
    BegunIs();
    hide BegunAgain;
  }

  lemma BegunIs()
    ensures var g := BegunAgain(Outside(0));
            && g.recs == map[X := INPUT, E := E_NEW, K := K_OLD, Z := Z_NEW] && g.rev == 3 && g.req == 3
            && g.known == {E, P, Q, K} && P !in g.start && Q !in g.start
  {
    WithZOk();
    hide Inv; hide WithZ;
  }

  lemma EPasses()
    ensures Verifiable(Outside(1), BegunAgain(Outside(0)), E)
  {
    BegunIs();
    hide BegunAgain;
  }

  /** The probe of `Z` still reads as recorded. */
  lemma ZStands()
    ensures var g := Next(Outside(0)); ResourceUpdate(Setting(), Outside(1), g, Z, g.rev, Z_KEPT)
  {
    BegunIs();
    hide BegunAgain; hide Program;
    assert Next(Outside(0)).recs[Z] == Z_NEW;
  }

  lemma SettingIs()
    ensures Setting().prog == Program() && InLabelOrder(Setting().labelOf, [Z])
  {}

  lemma PSettled()
    ensures var w', g := Outside(1), Probed(Outside(0));
            && Settled(w', g, Z) && Now(w', g, Z) == Val(2)
            && Settled(w', g, Ambient(0)) && Now(w', g, Ambient(0)) == Val(1)
            && !Settled(w', g, P)
  {
    NextIs();
    hide Probed; hide Verifiable;
  }

  lemma PRuns()
    ensures var g := Probed(Outside(0));
            && Executed(Setting(), Outside(1), g, P, Trace([Z, Ambient(0)], [Val(2), Val(1)]), Val(0), P_NEW)
            && Reason(Outside(1), g, P)
  {
    NextIs();
    PReplays();
    PSettled();
    hide Probed; hide Replays; hide Halts; hide Verifiable; hide Settled; hide Now; hide Setting;
    var t := Trace([Z, Ambient(0)], [Val(2), Val(1)]);
    assert t.keys[0] == Z && t.keys[1] == Ambient(0);
    SettingIs();
  }

  lemma WithPIs()
    ensures var g := WithP(Outside(0), Outside(1));
            && g.recs == map[X := INPUT, E := E_KEPT, K := K_OLD, Z := Z_KEPT, P := P_NEW]
            && g.rev == 3 && g.req == 3 && g.known == {E, P, Q, K} && Q !in g.start
  {
    NextIs();
    hide Probed; hide Verifiable;
  }

  lemma QRuns()
    ensures var g := WithP(Outside(0), Outside(1));
            && Executed(Setting(), Outside(1), g, Q, Trace([E, P], [Val(2), Val(0)]), Val(2), Q_NEW)
            && Reason(Outside(1), g, Q)
  {
    WithPIs();
    QReplays();
    hide WithP; hide Replays; hide Halts;
    var t := Trace([E, P], [Val(2), Val(0)]);
    assert t.keys[0] == E && t.keys[1] == P;
  }

  lemma KPasses()
    ensures var g := Again(Outside(0), Outside(1));
            Verifiable(Outside(1), g, K) && g.recs[K].answer == Val(1) && InputsOf(g.recs) == map[X := 2]
  {
    WithPIs();
    hide WithP;
    var g := Again(Outside(0), Outside(1));
    assert g.recs == map[X := INPUT, E := E_KEPT, K := K_OLD, Z := Z_KEPT, P := P_NEW, Q := Q_NEW];
    assert g.rev == 3 && g.req == 3;
    assert InputsOf(g.recs).Keys == {X};
  }

  lemma FreshIsTwo()
    ensures Fresh(Program(), WorldLeaves(Setting(), Outside(1), map[X := 2]), K, Val(2))
  {
    var prog, l := Program(), WorldLeaves(Setting(), Outside(1), map[X := 2]);
    assert WorldAnswer(Setting(), Outside(1), Z) == Val(2);
    assert Eval(prog, l, 0, Z) == Some(Val(2)) && Eval(prog, l, 0, Ambient(0)) == Some(Val(1));
    assert [] + [Val(2)] == [Val(2)];
    assert [Val(2)] + [Val(1)] == [Val(2), Val(1)] && [Val(2)] + [Val(0)] == [Val(2), Val(0)];
    assert RunBody(prog, l, 0, prog[1], [Val(2)]) == Some(Val(2));
    assert Eval(prog, l, 1, E) == Some(Val(2));
    assert RunBody(prog, l, 0, prog[2], [Val(2), Val(1)]) == Some(Val(0));
    assert RunBody(prog, l, 0, prog[2], [Val(2)]) == Some(Val(0));
    assert Eval(prog, l, 1, P) == Some(Val(0));
    assert RunBody(prog, l, 1, prog[3], [Val(2), Val(0)]) == Some(Val(2));
    assert RunBody(prog, l, 1, prog[3], [Val(2)]) == Some(Val(2));
    assert Eval(prog, l, 2, Q) == Some(Val(2));
    assert RunBody(prog, l, 2, prog[4], [Val(2)]) == Some(Val(2));
    assert Eval(prog, l, 3, K) == Some(Val(2));
  }

  lemma Stops()
    ensures StopOk(Setting(), Outside(0), WithZ(Outside(0)), Manifest(), Discarded(Q), Evidence(Before(), map[], []))
  {
    WithZOk();
    hide Inv; hide WithZ; hide Program; hide Before;
    assert Q in WithZ(Outside(0)).recs[K].deps;
  }

  /** Where `Q` is to be taken back the invariant holds. With its record dropped, and `P` and `Q` run again in the
      next request, `K` passes verification and is not what a fresh database computes. */
  lemma DiscardedIsStale()
    ensures AllSound(Program(), Manifest()) && KindOf(K) < KindOf(Z) && Inv(Setting(), Outside(0), WithZ(Outside(0)))
    ensures StopOk(Setting(), Outside(0), WithZ(Outside(0)), Manifest(), Discarded(Q), Evidence(Before(), map[], []))
    ensures Verifiable(Outside(1), BegunAgain(Outside(0)), E)
    ensures ResourceUpdate(Setting(), Outside(1), Next(Outside(0)), Z, 3, Z_KEPT)
    ensures Executed(Setting(), Outside(1), Probed(Outside(0)), P, Trace([Z, Ambient(0)], [Val(2), Val(1)]), Val(0),
              P_NEW)
    ensures Executed(Setting(), Outside(1), WithP(Outside(0), Outside(1)), Q, Trace([E, P], [Val(2), Val(0)]), Val(2),
              Q_NEW)
    ensures var g := Again(Outside(0), Outside(1));
            && Verifiable(Outside(1), g, K) && g.recs[K].answer == Val(1)
            && Fresh(Program(), WorldLeaves(Setting(), Outside(1), InputsOf(g.recs)), K, Val(2))
  {
    hide AllSound; hide Executed; hide Verifiable; hide Fresh; hide WorldLeaves; hide WithP; hide Again;
    hide Reason; hide Inv; hide Program; hide WithZ; hide BegunAgain; hide ResourceUpdate; hide Probed;
    hide StopOk;
    Stops();
    EPasses();
    ManifestSound();
    WithZOk();
    BegunIs();
    ZStands();
    PRuns();
    QRuns();
    KPasses();
    FreshIsTwo();
  }
}
