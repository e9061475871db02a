/** Why a restore stops under eviction when a dependency has not been brought up to date (`Unchecked`).

    `E` is a copy of the input `X`, `K` a copy of `E`; `P` reads the resource `Z` and returns `K` if that is 1, and 0
    otherwise; `ROOT` reads `E` and then `K`, and returns what `K` is. There is room for two query records. All were
    saved at X = 1 and Z = 1. `E` was restored while X was 1 and never asked for; then X was set to 2. Now `P` is asked
    for. To restore it, its dependency `K` is looked at first, and restored over `E`; but `Z` is 2, so `P` runs. Of the
    three records one is evicted, and it may be `E`, which was never used. When `ROOT` is asked for, `E` runs, for the
    first time as far as the records tell, so the revision stands, and `K` passes.
 */
module Unsettled {
  import opened Options
  import opened Programs
  import opened Graphs
  import opened SavedRecords
  import opened Steps
  import opened Nesting
  import opened Restores
  import opened Requests
  import opened Databases

  const X := Input(0)
  const Z := Resource(0)
  const E := Query(1)
  const K := Query(2)
  const P := Query(3)
  const ROOT := Query(4)

  function Last(h: seq<Answer>): Move
    requires h != []
  {
    if h[|h| - 1].Val? then Done(h[|h| - 1].v) else Done(0)
  }

  function Copy(k: Key): RawBody {
    RawBody((h: seq<Answer>) => if |h| == 0 then Ask(k) else Last(h), 1)
  }

  const BODY_P: RawBody := RawBody((h: seq<Answer>) =>
    if |h| == 0 then Ask(Z) else if h[0] != Val(1) then Done(0) else if |h| == 1 then Ask(K) else Last(h), 2)
  const BODY_ROOT: RawBody := RawBody((h: seq<Answer>) =>
    if |h| == 0 then Ask(E) else if |h| == 1 then Ask(K) else Last(h), 2)

  function Program(): Prog {
    assert Halts(Copy(X)) && Halts(Copy(E)) && Halts(BODY_P) && Halts(BODY_ROOT);
    map[1 := Copy(X), 2 := Copy(E), 3 := BODY_P, 4 := BODY_ROOT]
  }

  function Setting(): Config {
    Config(Program(), (k: Key) => 0, (r: nat, v: int) => Val(v), Some(2))
  }

  function Outside(): World {
    World((r: nat) => Some(2), (i: nat) => 0)
  }

  const SAVED_E: Saved := Saved(Val(1), false, map[X := Val(1)])
  const SAVED_K: Saved := Saved(Val(1), false, map[E := Val(1)])
  const SAVED_P: Saved := Saved(Val(1), false, map[K := Val(1), Z := Val(1)])

  function Manifest(): Checkpoint {
    map[E := SAVED_E, K := SAVED_K, P := SAVED_P]
  }

  const X_RECORD: Record := Record(Val(2), 2, 2, [], false, 0, -1, false)
  const E_RECORD: Record := RestoredRecord(Val(1), 1, [X], 1)
  const K_RECORD: Record := RestoredRecord(Val(1), 2, [E], -1)
  const Z_RECORD: Record := Record(Val(2), 2, 2, [], false, 2, 2, false)
  const P_RUN: Record := Record(Val(0), 2, 2, [Z], false, 0, 2, false)
  const E_AGAIN: Record := Record(Val(2), 2, 2, [X], false, 0, 3, false)
  const ROOT_RUN: Record := Record(Val(1), 2, 2, [E, K], false, 0, 3, false)

  const ONE_X: Trace := Trace([X], [Val(1)])
  const ONE_E: Trace := Trace([E], [Val(1)])
  const ONE_P: Trace := Trace([Z, K], [Val(1), Val(1)])
  const TWO_Z: Trace := Trace([Z], [Val(2)])
  const TWO_X: Trace := Trace([X], [Val(2)])
  const ROOT_READS: Trace := Trace([E, K], [Val(2), Val(1)])

  /** The request for `P` has begun. */
  ghost function Before(): Graph {
    var recs, traces := map[X := X_RECORD, E := E_RECORD], map[E := ONE_X];
    Graph(2, 2, recs, {P}, traces, (i: nat) => 0, 1, recs, traces, multiset{}, {E}, AnswersIn(Manifest()), 2)
  }

  /** What storing the record makes of it. */
  ghost function WithK(): Graph {
    RestoredOnTop(Before(), K, ONE_E, K_RECORD)
  }

  /** `Z` is loaded. */
  ghost function Stored(): Graph {
    WithK().(recs := WithK().recs[Z := Z_RECORD])
  }

  ghost function WithP(): Graph {
    Committed(Outside(), Stored(), P, TWO_Z, P_RUN, true)
  }

  /** `E` is evicted; the next request begins, and `ROOT` is asked for. */
  ghost function Asked(): Graph {
    var g := Begun(WithP().(recs := WithP().recs - {E}));
    g.(known := {E, P, ROOT})
  }

  ghost function Again(): Graph {
    Committed(Outside(), Asked(), E, TWO_X, E_AGAIN, true)
  }

  ghost function Verified(): Graph
    requires K in Again().recs
  {
    AfterVerify(Again(), K)
  }

  lemma OneRead(k: Key, a: Answer)
    ensures var t := Trace([k], [a]);
            && t.keys[0] == k && t.answers[..0] == [] && t.answers[..1] == [a] && forall d :: d in t.keys <==> d == k
  {}

  lemma TwoReads(k: Key, a: Answer, k': Key, a': Answer)
    ensures var t := Trace([k, k'], [a, a']);
            && t.keys[0] == k && t.keys[1] == k' && t.answers[..0] == [] && t.answers[..1] == [a]
            && t.answers[..2] == [a, a']
  {}

  lemma AllReplay()
    ensures Replays(Copy(X), ONE_X, Val(1)) && Replays(Copy(E), ONE_E, Val(1)) && Replays(BODY_P, ONE_P, Val(1))
    ensures Replays(BODY_P, TWO_Z, Val(0)) && Replays(Copy(X), TWO_X, Val(2)) && Replays(BODY_ROOT, ROOT_READS, Val(1))
  {
    OneRead(X, Val(1));
    OneRead(E, Val(1));
    OneRead(Z, Val(2));
    OneRead(X, Val(2));
    TwoReads(Z, Val(1), K, Val(1));
    TwoReads(E, Val(2), K, Val(1));
  }

  lemma ManifestSound()
    ensures AllSound(Program(), Manifest())
  {
    AllReplay();
    hide Replays; hide Halts;
    OneRead(X, Val(1));
    OneRead(E, Val(1));
    TwoReads(Z, Val(1), K, Val(1));
    assert AnswersOf(ONE_X, SAVED_E.deps) && AnswersOf(ONE_E, SAVED_K.deps) && AnswersOf(ONE_P, SAVED_P.deps);
  }

  lemma TraceBefore()
    ensures TraceOk(Setting(), Before(), E) && Before().traces[E] == ONE_X
  {
    AllReplay();
    OneRead(X, Val(1));
    hide Replays; hide Halts;
  }

  lemma SettingOk()
    ensures Setting().Valid() && Setting().Evicts()
  {}

  lemma PartsBefore()
    ensures forall k :: k in Before().recs ==> StampsOk(Before(), k) && SinceOk(Outside(), Before(), k)
    ensures forall q :: RunOk(Outside(), Before(), q)
    ensures KnownOk(Before(), E) && Before().recs.Keys == {X, E} && BumpOk(Outside(), Before())
  {
    hide AnswersIn; hide Program;
  }

  lemma EdgeBefore()
    ensures EdgeOk(Setting(), Before(), E, X, Val(1)) && ClosedOk(Outside(), Before(), E, X, Val(1))
    ensures CurrentOk(Setting(), Before(), E, X, Val(1)) && SteadyOk(Setting(), Outside(), Before())
  {
    hide AnswersIn; hide Program;
  }

  lemma BeforeOk()
    ensures Inv(Setting(), Outside(), Before())
  {
    SettingOk();
    TraceBefore();
    PartsBefore();
    EdgeBefore();
    OneRead(X, Val(1));
    hide TraceOk; hide Halts; hide Program; hide AnswersIn; hide RunOk; hide SinceOk; hide StampsOk;
    hide EdgeOk; hide ClosedOk; hide CurrentOk; hide BumpOk; hide KnownOk; hide SteadyOk; hide Manifest;
  }

  /** What is kept of the restore that stops. */
  ghost function Witness(): Evidence {
    Evidence(Before(), map[E := Before()], [])
  }

  lemma Stops()
    ensures StopOk(Setting(), Outside(), Before(), Manifest(), Unchecked(K), Witness())
    ensures Obstacle(Setting(), Before().recs, 2, 2, Manifest(), false, false, K) == Some(Unchecked(K))
  {
    BeforeOk();
    SettingOk();
    StepSelf(Outside(), Before());
    hide Inv; hide Step; hide Program;
    assert Carries(Before().recs, E, Val(1)) && !UpToDate(Before().recs, 2, E);
    assert E in SAVED_K.deps && E in Before().recs && Before().recs[E].verifiedAt == 1;
  }

  lemma StoredIs()
    ensures Stored().recs == map[X := X_RECORD, E := E_RECORD, K := K_RECORD, Z := Z_RECORD]
    ensures Stored().rev == 2 && Stored().req == 2 && Stored().known == {P} && P !in Stored().start
    ensures ResourceUpdate(Setting(), Outside(), WithK(), Z, 2, Z_RECORD)
  {
    hide Program;
  }

  lemma PRuns()
    ensures Executed(Setting(), Outside(), Stored(), P, TWO_Z, Val(0), P_RUN) && Reason(Outside(), Stored(), P)
  {
    StoredIs();
    AllReplay();
    OneRead(Z, Val(2));
    hide Stored; hide Replays; hide Halts;
  }

  lemma WithPIs()
    ensures WithP().recs == map[X := X_RECORD, E := E_RECORD, K := K_RECORD, Z := Z_RECORD, P := P_RUN]
    ensures WithP().rev == 2 && WithP().req == 2
  {
    StoredIs();
    hide Stored;
  }

  /** Only `P` was ever used. */
  lemma OneEvicted()
    ensures Databases.Trimmed(WithP().recs, Asked().recs, map[P := 1], map[P := 1], 1)
    ensures |QueriesIn(WithP().recs)| == 3 && |QueriesIn(Asked().recs)| == 2
  {
    WithPIs();
    AskedIs();
    hide WithP; hide Asked;
    assert QueriesIn(WithP().recs) == {E, K, P} && QueriesIn(Asked().recs) == {K, P};
  }

  lemma AskedIs()
    ensures Asked().recs == map[X := X_RECORD, K := K_RECORD, Z := Z_RECORD, P := P_RUN]
    ensures Asked().rev == 2 && Asked().req == 3 && Asked().known == {E, P, ROOT} && E !in Asked().start
    ensures ROOT !in Asked().start
  {
    WithPIs();
    hide WithP;
  }

  lemma RunAgain()
    ensures Executed(Setting(), Outside(), Asked(), E, TWO_X, Val(2), E_AGAIN) && Reason(Outside(), Asked(), E)
  {
    AskedIs();
    AllReplay();
    OneRead(X, Val(2));
    hide Replays; hide Halts; hide Asked;
  }

  lemma AgainIs()
    ensures Again().recs == map[X := X_RECORD, K := K_RECORD, Z := Z_RECORD, P := P_RUN, E := E_AGAIN]
    ensures Again().rev == 2 && Again().req == 3 && Again().known == {E, P, ROOT} && ROOT !in Again().start
  {
    AskedIs();
    hide Asked;
  }

  lemma KPasses()
    ensures Verifiable(Outside(), Again(), K) && Again().recs[K].answer == Val(1)
    ensures InputsOf(Again().recs) == map[X := 2]
  {
    AgainIs();
    hide Again;
    assert InputsOf(Again().recs).Keys == {X};
  }

  lemma RootRuns()
    ensures K in Again().recs
    ensures Executed(Setting(), Outside(), Verified(), ROOT, ROOT_READS, Val(1), ROOT_RUN)
  {
    AgainIs();
    AllReplay();
    TwoReads(E, Val(2), K, Val(1));
    hide Again; hide Replays; hide Halts;
  }

  lemma FreshIsTwo()
    ensures Fresh(Program(), WorldLeaves(Setting(), Outside(), map[X := 2]), ROOT, Val(2))
  {
    var prog, l := Program(), WorldLeaves(Setting(), Outside(), map[X := 2]);
    assert [] + [Val(2)] == [Val(2)] && [Val(2)] + [Val(2)] == [Val(2), Val(2)];
    assert RunBody(prog, l, 0, prog[1], [Val(2)]) == Some(Val(2));
    assert Eval(prog, l, 1, E) == Some(Val(2));
    assert RunBody(prog, l, 1, prog[2], [Val(2)]) == Some(Val(2));
    assert Eval(prog, l, 2, K) == Some(Val(2));
    EvalMonotone(prog, l, l, 1, 2, E);
    assert RunBody(prog, l, 2, prog[4], [Val(2), Val(2)]) == Some(Val(2));
    assert RunBody(prog, l, 2, prog[4], [Val(2)]) == Some(Val(2));
    assert Eval(prog, l, 3, ROOT) == Some(Val(2));
  }

  function Rank(i: nat): nat {
    if i <= 1 then 0 else if i == 2 then 1 else 2
  }

  /** The calls go down a rank. */
  lemma Ranked()
    ensures CallsDown(Program(), Rank, Outside(), {X})
  {
    forall id, h | id in Program() && Program()[id].step(h).Ask?
      ensures CallOk(Program(), Rank, Outside(), {X}, id, Program()[id].step(h).key)
    {}
  }

  /** The calls go down a rank, the saved record is sound and its dependency carries the saved answer, so it would be
      stored. With it stored, one eviction and one run later, it passes verification, and `ROOT` returns what it holds,
      which is not what a fresh database computes. */
  lemma UncheckedIsStale()
    ensures AllSound(Program(), Manifest()) && KindOf(K) < KindOf(Z) && Inv(Setting(), Outside(), Before())
    ensures CallsDown(Program(), Rank, Outside(), {X})
    ensures Obstacle(Setting(), Before().recs, 2, 2, Manifest(), false, false, K) == Some(Unchecked(K))
    ensures StopOk(Setting(), Outside(), Before(), Manifest(), Unchecked(K), Witness())
    ensures ResourceUpdate(Setting(), Outside(), WithK(), Z, 2, Z_RECORD)
    ensures Executed(Setting(), Outside(), Stored(), P, TWO_Z, Val(0), P_RUN) && Reason(Outside(), Stored(), P)
    ensures Databases.Trimmed(WithP().recs, Asked().recs, map[P := 1], map[P := 1], 1)
    ensures |QueriesIn(WithP().recs)| == 3 && |QueriesIn(Asked().recs)| == 2
    ensures Executed(Setting(), Outside(), Asked(), E, TWO_X, Val(2), E_AGAIN) && Reason(Outside(), Asked(), E)
    ensures Verifiable(Outside(), Again(), K)
    ensures Executed(Setting(), Outside(), Verified(), ROOT, ROOT_READS, Val(1), ROOT_RUN)
    ensures Fresh(Program(), WorldLeaves(Setting(), Outside(), InputsOf(Again().recs)), ROOT, Val(2))
  {
    ManifestSound();
    Ranked();
    BeforeOk();
    Stops();
    StoredIs();
    PRuns();
    OneEvicted();
    RunAgain();
    KPasses();
    RootRuns();
    FreshIsTwo();
    hide Inv; hide Fresh; hide WorldLeaves; hide AllSound; hide Executed; hide Verifiable; hide StopOk;
    hide Obstacle; hide Databases.Trimmed; hide Program; hide Reason; hide Again; hide Asked; hide WithP;
    hide Stored; hide QueriesIn; hide ResourceUpdate; hide CallsDown; hide WithK;
  }
}
