/** Why a query is answered only if no call on the way can raise: dependencies are checked in label order.

    `P` reads the input `X` and, if that is 1, `E`; `E` reads the input `Y` and raises unless it is 1. Asked
    for at X = 1 and Y = 1, `P` depends on both, and `E` is checked first. At X = 0 and Y = 2 a fresh database
    never calls `E`; a verification of `P` starts with it, and that raises.
 */
module Raising {
  import opened Options
  import opened Programs
  import opened Graphs
  import opened SavedRecords
  import opened Nesting
  import opened Restores
  import opened Databases

  const X := Input(0)
  const Y := Input(1)
  const E := Query(1)
  const P := Query(2)

  const BODY_E: RawBody := RawBody((h: seq<Answer>) =>
    if |h| == 0 then Ask(Y) else if h[0] == Val(1) then Done(1) else Raise, 1)
  const BODY_P: RawBody := RawBody((h: seq<Answer>) =>
    if |h| == 0 then Ask(X) else if h[0] != Val(1) then Done(0) else if |h| == 1 then Ask(E) else Done(1), 2)

  function Program(): Prog {
    assert Halts(BODY_E) && Halts(BODY_P);
    map[1 := BODY_E, 2 := BODY_P]
  }

  /** `E` comes before the inputs. */
  function Setting(): Config {
    Config(Program(), (k: Key) => if k == E then 0 else 1, (r: nat, v: int) => Val(v), None)
  }

  const X_RECORD: Record := Record(Val(0), 2, 2, [], false, 0, -1, false)
  const Y_RECORD: Record := Record(Val(2), 2, 2, [], false, 0, -1, false)
  const E_RECORD: Record := Record(Val(1), 1, 1, [Y], false, 0, 1, false)
  const P_RECORD: Record := Record(Val(1), 1, 1, [E, X], false, 0, 1, false)

  /** The request for `P` has begun. */
  ghost function Before(): Graph {
    var recs := map[X := X_RECORD, Y := Y_RECORD, E := E_RECORD, P := P_RECORD];
    var traces := map[E := Trace([Y], [Val(1)]), P := Trace([X, E], [Val(1), Val(1)])];
    Graph(2, 2, recs, {E, P}, traces, (i: nat) => if i == 2 then 1 else 0, 2, recs, traces, multiset{}, {}, map[], 2)
  }

  lemma TracesOk()
    ensures TraceOk(Setting(), Before(), E) && TraceOk(Setting(), Before(), P)
  {
    var t, t' := Trace([Y], [Val(1)]), Trace([X, E], [Val(1), Val(1)]);
    assert t.answers[..0] == [] && t.answers[..1] == [Val(1)] && t.keys[0] == Y;
    assert t'.answers[..0] == [] && t'.answers[..1] == [Val(1)] && t'.answers[..2] == [Val(1), Val(1)];
    assert t'.keys[0] == X && t'.keys[1] == E;
    assert Replays(BODY_E, t, Val(1)) && Replays(BODY_P, t', Val(1));
    hide Replays; hide Halts;
  }

  lemma BeforeOk(w: World)
    ensures Inv(Setting(), w, Before())
  {
    hide TraceOk; hide Halts; hide Program; hide SinceOk; hide StampsOk; hide RunOk;
    TracesOk();
    RecordsBefore(w);
  }

  lemma RecordsBefore(w: World)
    ensures forall k :: k in Before().recs ==> StampsOk(Before(), k) && SinceOk(w, Before(), k)
    ensures forall q :: RunOk(w, Before(), q)
  {
    hide Program;
  }

  /** What `E` does over these inputs, at any depth. */
  lemma Raises(l: Leaves, n: nat)
    requires l(Y) == Some(Val(2))
    ensures Eval(Program(), l, n, E).None?
  {
    if n > 0 {
      assert [] + [Val(2)] == [Val(2)];
      assert Eval(Program(), l, n - 1, Y) == Some(Val(2));
      assert RunBody(Program(), l, n - 1, BODY_E, [Val(2)]) == None;
      assert RunBody(Program(), l, n - 1, BODY_E, []) == None;
    }
  }

  lemma FreshIsZero(w: World)
    ensures Fresh(Program(), WorldLeaves(Setting(), w, map[X := 0, Y := 2]), P, Val(0))
  {
    var prog, l := Program(), WorldLeaves(Setting(), w, map[X := 0, Y := 2]);
    assert [] + [Val(0)] == [Val(0)];
    assert RunBody(prog, l, 0, BODY_P, [Val(0)]) == Some(Val(0));
    assert Eval(prog, l, 1, P) == Some(Val(0));
  }

  lemma InputsBefore()
    ensures InputsOf(Before().start) == map[X := 0, Y := 2] && E in Before().start
  {
    assert InputsOf(Before().start).Keys == {X, Y};
  }

  /** Whatever the request does, `E` is not settled in it. */
  lemma NeverSettled(w: World, g: Graph)
    requires Inv(Setting(), w, g) && InputsOf(g.recs) == map[X := 0, Y := 2]
    ensures !Settled(w, g, E)
  {
    hide Inv;
    var l := WorldLeaves(Setting(), w, InputsOf(g.recs));
    forall n: nat ensures Eval(Program(), l, n, E).None? { Raises(l, n); }
    if Settled(w, g, E) { SettledFreshInWorld(Setting(), w, g, E); }
  }

  /** The dependency `P` is verified by first cannot be settled, though a fresh database answers `P`. */
  lemma FirstCheckRaises(w: World)
    ensures Inv(Setting(), w, Before()) && InputsOf(Before().recs) == map[X := 0, Y := 2]
    ensures Before().recs[P].deps[0] == E && E !in Before().blind
    ensures forall g :: Inv(Setting(), w, g) && InputsOf(g.recs) == map[X := 0, Y := 2] ==> !Settled(w, g, E)
    ensures Fresh(Program(), WorldLeaves(Setting(), w, InputsOf(Before().recs)), P, Val(0))
  {
    hide Inv; hide Fresh; hide WorldLeaves; hide Settled;
    BeforeOk(w);
    assert InputsOf(Before().recs).Keys == {X, Y};
    assert InputsOf(Before().recs) == map[X := 0, Y := 2];
    FreshIsZero(w);
    forall g | Inv(Setting(), w, g) && InputsOf(g.recs) == map[X := 0, Y := 2] ensures !Settled(w, g, E) {
      NeverSettled(w, g);
    }
  }

  /** So checking it ends in its exception. */
  method CheckFirst(db: Database) returns (ok: bool, changed: bool)
    requires db.cfg == Setting() && db.Inside(map[P := 0], {E}) && db.stack == []
    requires db.records == Before().recs && db.start == Before().start && db.proof.blind == {} && db.checkpoint == map[]
    modifies db
    ensures !ok
  {
    hide Inv; hide InRequest; hide Advances; hide Falls; hide InCalm; hide StopOk; hide Settled; hide InputsOf;
    hide CheckpointOk;
    InputsBefore();
    ghost var g, keys := db.G(), db.Busy(map[P := 0]);
    ok, changed := db.MaybeChangedAfter(E, db.records[P].verifiedAt, map[P := 0]);
    InputsKept(db.cfg, db.world, db.G());
    NeverSettled(db.world, db.G());
    SinceBegun(db.world, g, db.G(), keys);
    assert db.proof.blind == {};
  }
}
