/** The incremental database: inputs are set, the world moves, queries are asked for.

    `Get` answers from the records, and from a loaded checkpoint, where it can. The contracts say that
    whatever it returns is what a fresh database would compute, that a body runs at most once a request and
    only with a reason, and that over a program whose calls go down a static rank it always returns, unless
    a restore stops the request; then they say why.
 */
module Databases {
  import opened Options
  import opened Sequences
  import opened Programs
  import opened Graphs
  import opened SavedRecords
  import opened Steps
  import opened Demand
  import opened Nesting
  import opened Causes
  import opened Restores
  import opened Requests

  /** How a refresh of a resource ended: with a value, raising after a failure was recorded, or
      raising with nothing recorded. */
  datatype Refresh = Answered | FailureRecorded | Unrecorded

  /** The proof state of the record graph. */
  datatype Proof = Proof(traces: map<Key, Trace>, rank: nat -> nat, top: nat, runs: multiset<Key>, blind: set<Key>)

  ghost function ProofOf(g: Graph): Proof {
    Proof(g.traces, g.rank, g.top, g.runs, g.blind)
  }

  class Database {
    const cfg: Config
    var revision: nat
    var requestId: int
    var records: map<Key, Record>
    /** The queries whose query object is at hand. */
    var known: set<Key>
    var stack: seq<Key>
    var world: World
    var lastUsed: map<Key, nat>
    var touches: nat
    /** The loaded checkpoint, and for each root the nodes whose code its captures pin. */
    var checkpoint: Checkpoint
    const pinned: Key -> set<Key>
    /** Set where the current request is not followed further. */
    var stopped: Option<Stop>
    /** A candidate static rank of the program's calls, and the proof state of the record graph. */
    ghost const depth: nat -> nat
    ghost var proof: Proof
    ghost var start: map<Key, Record>
    ghost var began: map<Key, Trace>
    /** Where a request stopped, what had gone before. */
    ghost var evidence: Evidence
    /** A numbering of the checkpoint and a part of it to be relied on, the revision the request began at, and a
        quiet part of what it found. */
    ghost var order: map<Key, nat>
    ghost var part: set<Key>
    ghost var firstRev: nat
    ghost var calm: set<Key>
    ghost var calmDepth: nat -> nat

    ghost function G(): Graph
      reads this
    {
      Graph(revision, requestId, records, known, proof.traces, proof.rank, proof.top, start, began, proof.runs,
        proof.blind, AnswersIn(checkpoint), firstRev)
    }

    ghost predicate Valid()
      reads this
    {
      CoreInv(cfg, world, G()) && stack == [] && CheckpointOk(cfg.prog, checkpoint, order) && MarksOk(lastUsed, touches)
    }

    ghost predicate Inside(held: map<Key, nat>, cur: set<Key>)
      reads this
    {
      InRequest(cfg, world, G(), Elements(stack), held, cur) && Open()
    }

    /** The request is being followed. */
    ghost predicate Open()
      reads this
    {
      stopped.None? && CheckpointOk(cfg.prog, checkpoint, order) && MarksOk(lastUsed, touches)
    }

    /** Where a request stops, nothing is answered. */
    ghost predicate Stops(ok: bool)
      reads this
    {
      && MarksOk(lastUsed, touches)
      && (stopped.Some? ==> !ok && Halted(cfg, world, G(), checkpoint, stopped.value, evidence, stack))
    }

    /** Since `g`, use marks moved up only, and only those of queries asked for. */
    ghost predicate Marks(g: Graph, used: map<Key, nat>, t: nat)
      reads this
    {
      MarksMove(world, g, G(), used, t, lastUsed, touches)
    }

    /** The nodes that must stay as they are. */
    ghost function Busy(held: map<Key, nat>): set<Key>
      reads this
    {
      held.Keys + Elements(stack)
    }

    /** What an attempt to bring `q` up to date, begun in `g`, comes to. If the calls go down from `q`, it succeeds
        unless spared, and no record came up above `q`; in a quiet part of the records it succeeds. Where it raises
        there is a cause. */
    ghost predicate Delivers(g: Graph, q: Key, keys: set<Key>, ok: bool)
      reads this
    {
      && Delivered(cfg, world, depth, calm, calmDepth, g, G(), q, keys, ok, Fine(ok, stopped, records))
      && (ok || stopped.Some? || Faults(q))
    }

    /** What the request found when it began. */
    ghost function AtStart(): Opening
      reads this`start, this`began, this`checkpoint, this`firstRev
    {
      Opening(start, began, AnswersIn(checkpoint), firstRev)
    }

    /** With what is being executed, bringing `k` up to date raises. */
    ghost predicate Faults(k: Key)
      reads this
    {
      Faulted(cfg, world, AtStart(), Elements(stack), k)
    }

    /** `q` carries the most recent use mark. */
    predicate MarkedLast(q: Key)
      reads this`lastUsed, this`touches
    {
      q in lastUsed && lastUsed[q] == touches
    }

    constructor (cfg: Config, world: World, pinned: Key -> set<Key>, ghost depth: nat -> nat)
      requires cfg.Valid()
      ensures Valid() && this.cfg == cfg && this.world == world && this.depth == depth && this.pinned == pinned
      ensures records == map[] && revision == 0 && checkpoint == map[]
    {
      this.cfg, this.world, this.pinned, this.depth := cfg, world, pinned, depth;
      revision, requestId, records, stack, lastUsed, touches := 0, 0, map[], [], map[], 0;
      checkpoint, stopped, order := map[], None, map[];
      proof, start, began, firstRev := Proof(map[], (i: nat) => 0, 1, multiset{}, {}), map[], map[], 0;
      known, calm, calmDepth, part := {}, {}, (i: nat) => 0, {};
    }

    // -------------------------------------------------------------------------------------------
    // Resources

    method ObserveResource(r: Key) returns (seen: Refresh)
      requires r.Resource? && Inv(cfg, world, G())
      modifies this`revision, this`records
      ensures Inv(cfg, world, G()) && Step(world, old(G()), G())
      ensures forall k :: k != r ==> Same(old(G()), G(), k)
      ensures seen == Unrecorded ==> G() == old(G()) && world.probe(r.id).None?
      ensures seen == Unrecorded && r in records ==> records[r].checkedIn != requestId
      ensures old(r in records && records[r].checkedIn == requestId) ==> G() == old(G()) && seen != Unrecorded
      ensures seen != Unrecorded ==> Settled(world, G(), r) && !records[r].unconfirmed
      ensures seen == Answered ==> records[r].answer.Val?
      ensures seen == FailureRecorded ==> records[r].answer.Failed?
      ensures r !in old(records) ==> revision == old(revision)
      ensures seen != Unrecorded && r in old(records) && Stands(r, records[r]) != old(Stands(r, records[r])) ==>
        records[r].changedAt == revision > old(revision)
    {
      hide AnswersIn; hide Replays; hide EdgeOk; hide ClosedOk; hide CurrentOk;
      ghost var g := G();
      if r in records { assert StampsOk(g, r) && ResourceOk(cfg, world, g, r); }
      if r in records && records[r].checkedIn == requestId {
        return if records[r].answer.Failed? then FailureRecorded else Answered;
      }
      // A record that could answer makes a standalone probe worth taking first.
      var probe := world.probe(r.id);
      if r in records && !records[r].answer.Failed? && !records[r].unconfirmed && probe == Some(records[r].probe) {
        var hit := records[r].(verifiedAt := revision, checkedIn := requestId);
        ghost var g' := ResourceStep(cfg, world, g, r, revision, hit);
        records := records[r := hit];
        return Answered;
      }
      if probe.None? { return Unrecorded; }
      seen := Load(r, probe.value);
    }

    /** Loads `r` and records what came of it. A first load takes the revision as it is; so does a
        failure that the record already describes; anything else moves the revision. */
    method Load(r: Key, probe: int) returns (seen: Refresh)
      requires r.Resource? && Inv(cfg, world, G()) && world.probe(r.id) == Some(probe)
      requires r in records ==> records[r].checkedIn != requestId
      requires r in records && records[r].probe == probe ==> records[r].answer.Failed? || records[r].unconfirmed
      modifies this`revision, this`records
      ensures Inv(cfg, world, G()) && Step(world, old(G()), G())
      ensures forall k :: k != r ==> Same(old(G()), G(), k)
      ensures Settled(world, G(), r) && !records[r].unconfirmed
      ensures records[r].answer == cfg.outcome(r.id, probe)
      ensures seen == if records[r].answer.Failed? then FailureRecorded else Answered
      ensures r !in old(records) ==> revision == old(revision)
      ensures r in old(records) && Stands(r, records[r]) != old(Stands(r, records[r])) ==>
        records[r].changedAt == revision > old(revision)
    {
      hide AnswersIn; hide Replays; hide EdgeOk; hide ClosedOk; hide CurrentOk;
      ghost var g := G();
      if r in records { assert StampsOk(g, r) && ResourceOk(cfg, world, g, r); }
      var answer := cfg.outcome(r.id, probe);
      var recorded := r in records;
      var same := recorded && answer.Failed? && records[r].answer.Failed? && !records[r].unconfirmed
                  && records[r].probe == probe;
      var rev := if !recorded || same then revision else revision + 1;
      var changedAt := if same then records[r].changedAt else rev;
      var rec := Record(answer, changedAt, rev, [], false, probe, requestId, false);
      ghost var g' := ResourceStep(cfg, world, g, r, rev, rec);
      revision, records := rev, records[r := rec];
      return if answer.Failed? then FailureRecorded else Answered;
    }

    /** Marks a record whose stored probe was contradicted. The transition moves the revision; a
        record already marked keeps it. */
    method Retire(r: Key)
      requires r.Resource? && r in records && Inv(cfg, world, G()) && world.probe(r.id).None?
      requires records[r].checkedIn != requestId
      modifies this`revision, this`records
      ensures Inv(cfg, world, G()) && Step(world, old(G()), G()) && Settled(world, G(), r)
      ensures forall k :: k != r ==> Same(old(G()), G(), k)
      ensures r in records && records[r] == old(records[r]).(unconfirmed := true)
      ensures revision == if old(records[r]).unconfirmed then old(revision) else old(revision) + 1
    {
      hide AnswersIn; hide Replays; hide EdgeOk; hide ClosedOk; hide CurrentOk; hide Inv;
      ghost var g := G();
      AtRecord(cfg, world, g, r);
      StartStored(cfg, world, g, r);
      StepSelf(world, g);
      var rec := records[r].(unconfirmed := true);
      if !records[r].unconfirmed {
        ghost var g' := ResourceStep(cfg, world, g, r, revision + 1, rec);
        revision := revision + 1;
        records := records[r := rec];
      } else {
        assert records[r := rec] == records;
      }
    }

    /** Brings `r` up to date. A raise nothing recorded retires the stored probe and moves the
        revision once; only an observation that rewrites the record takes the mark off again. */
    method RefreshResource(r: Key) returns (seen: Refresh)
      requires r.Resource? && Inv(cfg, world, G())
      modifies this`revision, this`records
      ensures Inv(cfg, world, G()) && Step(world, old(G()), G())
      ensures forall k :: k != r ==> Same(old(G()), G(), k)
      ensures r in records ==> Settled(world, G(), r)
      ensures old(r in records && records[r].checkedIn == requestId) ==> G() == old(G()) && seen != Unrecorded
      ensures r !in records ==> seen == Unrecorded && world.probe(r.id).None?
      ensures r in records ==> (seen == Unrecorded <==> records[r].unconfirmed)
      ensures r in records ==> (seen == FailureRecorded <==> !records[r].unconfirmed && records[r].answer.Failed?)
      ensures r !in old(records) ==> revision == old(revision)
      ensures r in old(records) && Stands(r, records[r]) != old(Stands(r, records[r])) ==>
        revision > old(revision) && (records[r].changedAt == revision || seen == Unrecorded)
      ensures seen == Unrecorded && r in records ==>
        r in old(records) && records[r] == old(records[r]).(unconfirmed := true)
    {
      hide AnswersIn; hide Replays; hide EdgeOk; hide ClosedOk; hide CurrentOk;
      seen := ObserveResource(r);
      if seen == Unrecorded && r in records {
        Retire(r);
      } else if r in records {
        assert StampsOk(G(), r);
        assert ResourceOk(cfg, world, G(), r);
      }
    }

    // -------------------------------------------------------------------------------------------
    // Queries

    /** Has `d` changed since `since`? Brings it up to date to tell. */
    method MaybeChangedAfter(d: Key, since: nat, ghost held: map<Key, nat>) returns (ok: bool, changed: bool)
      requires !d.Ambient? && Inside(held, {d})
      modifies this`revision, this`records, this`known, this`stack, this`lastUsed, this`touches, this`proof,
        this`stopped, this`evidence
      ensures stack == old(stack) && Inv(cfg, world, G()) && Advances(world, old(G()), G(), Busy(held)) && Stops(ok)
      ensures MarksMove(world, old(G()), G(), old(lastUsed), old(touches), lastUsed, touches)
      ensures ok && !changed ==> Passing(world, G(), d, since)
      ensures ok && changed ==> d !in start || d in proof.blind || MovedPast(world, G(), d, since)
      ensures ok && d.Query? && d in old(records) ==> d !in held && d !in stack
      ensures old(Passing(world, G(), d, since)) ==> G() == old(G()) && ok && !changed
      ensures d.Query? ==> Delivers(old(G()), d, Busy(held), ok)
      ensures !d.Query? ==> ok && Beside(cfg, world, old(G()), G(), d)
      decreases Room(cfg.prog, stack), Slack(cfg.prog, held.Keys), 0, if d.Query? then proof.rank(d.id) + 1 else 0, 5
    {
      hide Faulted;
      hide MarksMove; hide MarksOk;
      hide AnswersIn; hide Room; hide Slack; hide Inv; hide Advances; hide HeldOk; hide RunningOk; hide Falls;
      hide InCalm; hide CheckpointOk; hide Halted; hide Goes;
      ghost var g, keys := G(), Busy(held);
      StandsStill(world, g, keys);
      MarksStill(world, g, g, lastUsed, touches, keys);
      GoesStill(cfg, world, depth, g, d, keys, depth(d.id) + 1);
      InvInRequest(cfg, world, g, Elements(stack), held, {d});
      if d !in records {
        StartStored(cfg, world, g, d);
        return true, true;
      }
      AtRecord(cfg, world, g, d);
      if d.Query? && d !in known {
        ok, changed := VerifyRestored(d, held);
        if !ok || changed { return ok, true; }
      } else if d.Query? {
        ok := EnsureQuery(d, held);
        if !ok { return false, true; }
      } else if d.Resource? {
        var seen := RefreshResource(d);
        RefreshAdvances(cfg, world, g, G(), Elements(stack), held, d);
        ResourceBeside(cfg, world, g, G(), d);
        MarksStill(world, g, G(), lastUsed, touches, keys);
        if seen == Unrecorded { return true, true; }
      }
      AtRecord(cfg, world, G(), d);
      return true, records[d].untracked || records[d].changedAt > since;
    }

    /** A restored record with no query object to run: its own edges say whether it still stands. */
    method VerifyRestored(q: Key, ghost held: map<Key, nat>) returns (ok: bool, dirty: bool)
      requires q.Query? && q in records && q !in known && Inside(held, {q})
      modifies this`revision, this`records, this`known, this`stack, this`lastUsed, this`touches, this`proof,
        this`stopped, this`evidence
      ensures stack == old(stack) && Inv(cfg, world, G()) && Advances(world, old(G()), G(), Busy(held)) && Stops(ok)
      ensures MarksMove(world, old(G()), G(), old(lastUsed), old(touches), lastUsed, touches)
      ensures q in records && q in proof.blind
      ensures ok ==> q !in held && q !in stack
      ensures ok && !dirty ==> Settled(world, G(), q)
      ensures old(Settled(world, G(), q)) ==> G() == old(G()) && ok && !dirty
      ensures Delivers(old(G()), q, Busy(held), ok)
      decreases Room(cfg.prog, stack), Slack(cfg.prog, held.Keys), 0, proof.rank(q.id) + 1, 1
    {
      hide Faulted;
      hide MarksMove; hide MarksOk;
      hide AnswersIn; hide Room; hide Slack; hide Inv; hide Advances; hide InRequest; hide Falls; hide InCalm;
      hide Reason; hide Verifiable; hide Settled; hide Change; hide HeldOk; hide CheckpointOk; hide Halted;
      hide Goes;
      ghost var g, running, keys, used, t := G(), Elements(stack), Busy(held), lastUsed, touches;
      InvInRequest(cfg, world, g, running, held, {q});
      RunningUnsettled(cfg, world, g, running, held, {q}, q);
      StandsStill(world, g, keys);
      MarksStill(world, g, g, lastUsed, touches, keys);
      GoesStill(cfg, world, depth, g, q, keys, depth(q.id) + 1);
      AtRecord(cfg, world, g, q);
      QuerySettled(world, g, q);
      if records[q].checkedIn == requestId { return true, false; }
      ok, dirty := CheckDependencies(q, held);
      KeepsOne(world, g, G(), keys, q);
      BlindStays(world, g, G(), keys);
      if !ok || dirty { return; }
      ghost var g1 := G();
      Stamp(q);
      ChangeAdvances(world, g1, G(), q, keys);
      AdvancesTwice(world, g, g1, G(), keys);
      MarksThen(world, g, g1, G(), used, t, lastUsed, touches, keys);
      GoesChange(cfg, world, depth, g, g1, G(), q, keys, true, depth(q.id) + 1);
    }

    /** Brings `q` up to date: nothing if this request already has, its dependencies if that is
        enough, its body otherwise. False: it raised. */
    method EnsureQuery(q: Key, ghost held: map<Key, nat>) returns (ok: bool)
      requires q.Query? && q in known && Inside(held, if q in records then {q} else {})
      modifies this`revision, this`records, this`known, this`stack, this`lastUsed, this`touches, this`proof,
        this`stopped, this`evidence
      ensures stack == old(stack) && Inv(cfg, world, G()) && Advances(world, old(G()), G(), Busy(held)) && Stops(ok)
      ensures MarksMove(world, old(G()), G(), old(lastUsed), old(touches), lastUsed, touches)
      ensures ok ==> q in records && Settled(world, G(), q) && q !in held && q !in stack && MarkedLast(q)
      ensures old(Settled(world, G(), q)) ==> G() == old(G()) && ok
      ensures !ok ==> !Settled(world, G(), q)
      ensures Delivers(old(G()), q, Busy(held), ok)
      decreases Room(cfg.prog, stack), Slack(cfg.prog, held.Keys), 0, proof.rank(q.id) + 1, 4
    {
      hide Faulted;
      hide MarksMove; hide MarksOk;
      hide Step; hide HeldOk; hide AnswersIn; hide Room; hide Slack; hide Inv; hide Advances; hide InRequest;
      hide CallsDown; hide Above; hide Reason; hide Settled; hide Calm; hide DepsOk; hide Replays;
      hide StampsOk; hide KnownOk; hide Landed; hide Passing; hide CheckpointOk; hide Halted; hide Confined;
      hide Beside; hide Narrow;
      ghost var g, running, keys, used, t := G(), Elements(stack), Busy(held), lastUsed, touches;
      StandsStill(world, g, keys);
      MarksStill(world, g, g, lastUsed, touches, keys);
      GoesStill(cfg, world, depth, g, q, keys, depth(q.id) + 1);
      RunningUnsettled(cfg, world, g, running, held, if q in records then {q} else {}, q);
      InvInRequest(cfg, world, g, running, held, if q in records then {q} else {});
      CalmStored(cfg, world, g, g, keys, calm, calmDepth, q, keys);
      if q in stack {
        NotAboveItself(depth, q, keys);
        FaultHere(cfg, world, AtStart(), running, q);
        return false;
      }
      QuerySettled(world, g, q);
      if q in records { AtRecord(cfg, world, g, q); }
      if q.id !in cfg.prog {
        FaultHere(cfg, world, AtStart(), running, q);
        return false;
      }
      ok := true;
      if q !in records || records[q].checkedIn != requestId {
        ok := Settle(q, held);
      }
      if ok {
        MarksOne(world, g, G(), used, t, lastUsed, touches, q);
        MarkUsed(q);
      }
    }

    /** A query this request has not settled, and that is not running. */
    method Settle(q: Key, ghost held: map<Key, nat>) returns (ok: bool)
      requires q.Query? && q in known && q.id in cfg.prog && q !in stack && !Settled(world, G(), q)
      requires Inside(held, if q in records then {q} else {})
      modifies this`revision, this`records, this`known, this`stack, this`lastUsed, this`touches, this`proof,
        this`stopped, this`evidence
      ensures stack == old(stack) && Inv(cfg, world, G()) && Advances(world, old(G()), G(), Busy(held)) && Stops(ok)
      ensures MarksMove(world, old(G()), G(), old(lastUsed), old(touches), lastUsed, touches)
      ensures ok ==> q in records && Settled(world, G(), q) && q !in held
      ensures !ok ==> !Settled(world, G(), q)
      ensures Delivers(old(G()), q, Busy(held), ok)
      decreases Room(cfg.prog, stack), Slack(cfg.prog, held.Keys), 0, proof.rank(q.id) + 1, 3
    {
      hide Faulted;
      hide MarksMove; hide MarksOk;
      hide Step; hide HeldOk; hide AnswersIn; hide Room; hide Slack; hide Inv; hide Advances; hide InRequest;
      hide Falls; hide InCalm; hide Reason; hide Settled; hide CheckpointOk; hide Halted; hide Goes;
      ghost var g, running, keys := G(), Elements(stack), Busy(held);
      if q in records {
        ok := RevalidateQuery(q, held);
        return;
      }
      InvInRequest(cfg, world, g, running, held, {});
      RoomFalls(cfg.prog, stack, q);
      ColdStart(cfg, world, g, running, held, q);
      ok := ExecuteQuery(q, held);
      CalmStored(cfg, world, g, G(), keys, calm, calmDepth, q, keys);
    }

    /** A query with a record this request has not settled yet. */
    method RevalidateQuery(q: Key, ghost held: map<Key, nat>) returns (ok: bool)
      requires q.Query? && q in known && q in records && q.id in cfg.prog && q !in stack && !Settled(world, G(), q)
      requires Inside(held, {q})
      modifies this`revision, this`records, this`known, this`stack, this`lastUsed, this`touches, this`proof,
        this`stopped, this`evidence
      ensures stack == old(stack) && Inv(cfg, world, G()) && Advances(world, old(G()), G(), Busy(held)) && Stops(ok)
      ensures MarksMove(world, old(G()), G(), old(lastUsed), old(touches), lastUsed, touches)
      ensures ok ==> q in records && Settled(world, G(), q) && q !in held
      ensures !ok ==> !Settled(world, G(), q)
      ensures Delivers(old(G()), q, Busy(held), ok)
      decreases Room(cfg.prog, stack), Slack(cfg.prog, held.Keys), 0, proof.rank(q.id) + 1, 2
    {
      hide Faulted;
      hide MarksMove; hide MarksOk;
      hide Step; hide AnswersIn; hide Room; hide Slack; hide Inv; hide Advances; hide InRequest; hide Falls;
      hide InCalm; hide Reason; hide Settled; hide HeldOk; hide CheckpointOk; hide Halted; hide Goes;
      ghost var g, running := G(), Elements(stack);
      RoomFalls(cfg.prog, stack, q);
      if records[q].untracked {
        InvInRequest(cfg, world, g, running, held, {q});
        RunningUnsettled(cfg, world, g, running, held, {q}, q);
        UntrackedReason(cfg, world, g, q);
        ok := Rerun(q, held);
      } else {
        ok := RevalidateTracked(q, held);
      }
    }

    /** Its dependencies are checked; if one has moved it runs. */
    method RevalidateTracked(q: Key, ghost held: map<Key, nat>) returns (ok: bool)
      requires q.Query? && q in known && q in records && q.id in cfg.prog && q !in stack && !Settled(world, G(), q)
      requires Inside(held, {q}) && !records[q].untracked
      modifies this`revision, this`records, this`known, this`stack, this`lastUsed, this`touches, this`proof,
        this`stopped, this`evidence
      ensures stack == old(stack) && Inv(cfg, world, G()) && Advances(world, old(G()), G(), Busy(held)) && Stops(ok)
      ensures MarksMove(world, old(G()), G(), old(lastUsed), old(touches), lastUsed, touches)
      ensures ok ==> q in records && Settled(world, G(), q) && q !in held
      ensures !ok ==> !Settled(world, G(), q)
      ensures Delivers(old(G()), q, Busy(held), ok)
      decreases Room(cfg.prog, stack), Slack(cfg.prog, held.Keys), 0, proof.rank(q.id) + 1, 1
    {
      hide Faulted;
      hide MarksMove; hide MarksOk;
      hide Step; hide AnswersIn; hide Room; hide Slack; hide Inv; hide Advances; hide InRequest; hide Falls;
      hide InCalm; hide Reason; hide Verifiable; hide Settled; hide Change; hide HeldOk; hide CheckpointOk;
      hide Halted; hide Goes;
      ghost var g, running, keys, used, t := G(), Elements(stack), Busy(held), lastUsed, touches;
      InvInRequest(cfg, world, g, running, held, {q});
      RoomFalls(cfg.prog, stack, q);
      var dirty: bool;
      ok, dirty := CheckDependencies(q, held);
      ghost var g1, used1, t1 := G(), lastUsed, touches;
      KeepsOne(world, g, g1, keys, q);
      if ok && dirty {
        StillInRequest(cfg, world, g, g1, running, held, {q});
        ok := Rerun(q, held);
        AdvancesTwice(world, g, g1, G(), keys);
        MarksTwice(world, g, g1, G(), used, t, used1, t1, lastUsed, touches);
        GoesOn(cfg, world, depth, g, g1, G(), q, keys, true, Fine(ok, stopped, records), depth(q.id) + 1);
      } else if ok {
        Stamp(q);
        ChangeAdvances(world, g1, G(), q, keys);
        AdvancesTwice(world, g, g1, G(), keys);
        MarksThen(world, g, g1, G(), used, t, lastUsed, touches, keys);
        GoesChange(cfg, world, depth, g, g1, G(), q, keys, true, depth(q.id) + 1);
      }
    }

    /** Runs a query that has a record, and a reason to. */
    method Rerun(q: Key, ghost held: map<Key, nat>) returns (ok: bool)
      requires q.Query? && q in known && q in records && q.id in cfg.prog && q !in stack && q !in held
      requires !Settled(world, G(), q) && Reason(world, G(), q) && Inside(held, {q})
      modifies this`revision, this`records, this`known, this`stack, this`lastUsed, this`touches, this`proof,
        this`stopped, this`evidence
      ensures stack == old(stack) && Inv(cfg, world, G()) && Advances(world, old(G()), G(), Busy(held)) && Stops(ok)
      ensures MarksMove(world, old(G()), G(), old(lastUsed), old(touches), lastUsed, touches)
      ensures ok ==> q in records && Settled(world, G(), q)
      ensures !ok ==> !Settled(world, G(), q)
      ensures Delivers(old(G()), q, Busy(held), ok)
      decreases Room(cfg.prog, stack + [q]), Slack(cfg.prog, held.Keys), 7
    {
      hide Faulted;
      hide MarksMove; hide MarksOk;
      hide Step; hide HeldOk; hide AnswersIn; hide Room; hide Slack; hide Inv; hide Advances; hide InRequest;
      hide Falls; hide InCalm; hide Reason; hide Settled; hide CheckpointOk; hide Halted; hide Goes;
      ghost var g, running, keys := G(), Elements(stack), Busy(held);
      InvInRequest(cfg, world, g, running, held, {q});
      WarmStart(cfg, world, g, running, held, q);
      ok := ExecuteQuery(q, held);
      CalmStored(cfg, world, g, G(), keys, calm, calmDepth, q, keys);
    }

    /** Every dependency of `q` passed: the record stands as of this revision. */
    method Stamp(q: Key)
      requires Inv(cfg, world, G()) && Verifiable(world, G(), q)
      modifies this`records
      ensures Inv(cfg, world, G()) && Change(world, old(G()), G(), q)
      ensures q in old(records) && records == old(records)[q := Verified(old(records)[q], revision, requestId)]
    {
      hide AnswersIn; hide Room; hide Slack; hide Inv; hide Change;
      ghost var g' := VerifyStep(cfg, world, G(), q);
      records := records[q := Verified(records[q], revision, requestId)];
    }

    method MarkUsed(q: Key)
      modifies this`lastUsed, this`touches
      ensures touches == old(touches) + 1 && lastUsed == old(lastUsed)[q := touches]
    {
      touches := touches + 1;
      lastUsed := lastUsed[q := touches];
    }

    /** Checks dependency `j` of `q`, those before it having passed. With `q` already under
        verification further down, the one it waits for there cannot be brought up to date. */
    method CheckDependency(q: Key, j: nat, ghost held: map<Key, nat>) returns (ok: bool, changed: bool)
      requires q.Query? && q in records && Inside(held, {q}) && q !in stack
      requires !Settled(world, G(), q) && !records[q].untracked && j < |records[q].deps|
      requires forall i :: 0 <= i < j ==> Passing(world, G(), records[q].deps[i], records[q].verifiedAt)
      requires q in held ==> j <= held[q]
      modifies this`revision, this`records, this`known, this`stack, this`lastUsed, this`touches, this`proof,
        this`stopped, this`evidence
      ensures stack == old(stack) && Inv(cfg, world, G()) && Stops(ok)
      ensures MarksMove(world, old(G()), G(), old(lastUsed), old(touches), lastUsed, touches)
      ensures CheckedWell(cfg, world, depth, calm, calmDepth, old(G()), G(), q, Busy(held), j + 1, ok, changed,
                Fine(ok, stopped, records))
      ensures ok || stopped.Some? || Faults(q)
      ensures ok && q in held ==> j + 1 <= held[q] && !changed && G() == old(G())
      decreases Room(cfg.prog, stack), Slack(cfg.prog, held.Keys + {q}), 0, proof.rank(q.id), 6
    {
      hide Faulted;
      hide MarksMove; hide MarksOk;
      hide AnswersIn; hide Room; hide Slack; hide Inv; hide Advances; hide InRequest; hide Falls; hide InCalm;
      hide Reason; hide Passing; hide MovedPast; hide Settled; hide CheckpointOk; hide Halted; hide Goes;
      hide Confined; hide Beside; hide Narrow;
      ghost var g, running, keys := G(), Elements(stack), Busy(held);
      var d, since := records[q].deps[j], records[q].verifiedAt;
      ghost var held' := if q in held then held else held[q := j];
      AboutToCheck(cfg, world, g, running, held, q, j);
      assert held'.Keys + running == keys + {q} && held'.Keys == held.Keys + {q};
      ok, changed := MaybeChangedAfter(d, since, held');
      DependencyChecked(cfg, world, depth, calm, calmDepth, g, G(), q, d, keys, j, ok, changed,
        Fine(ok, stopped, records));
      if !ok && stopped.None? { FaultOfDependency(cfg, world, g, running, q, d); }
    }

    /** Verifies the recorded dependencies of `q` in label order until one has moved. */
    method CheckDependencies(q: Key, ghost held: map<Key, nat>) returns (ok: bool, dirty: bool)
      requires q.Query? && q in records && Inside(held, {q}) && q !in stack
      requires !Settled(world, G(), q) && !records[q].untracked
      modifies this`revision, this`records, this`known, this`stack, this`lastUsed, this`touches, this`proof,
        this`stopped, this`evidence
      ensures stack == old(stack) && Inv(cfg, world, G()) && Stops(ok)
      ensures MarksMove(world, old(G()), G(), old(lastUsed), old(touches), lastUsed, touches)
      ensures Advances(world, old(G()), G(), Busy(held) + {q})
      ensures ok ==> q !in held
      ensures ok && !dirty ==> Verifiable(world, G(), q)
      ensures ok && dirty ==> Reason(world, G(), q)
      ensures Delivers(old(G()), q, Busy(held), ok)
      decreases Room(cfg.prog, stack), Slack(cfg.prog, held.Keys), 0, proof.rank(q.id) + 1, 0
    {
      hide Faulted;
      hide MarksMove; hide MarksOk;
      hide Replays; hide DepsOk; hide AnswersIn; hide Room; hide Slack; hide Inv; hide Advances;
      hide InRequest; hide Falls; hide InCalm; hide Reason; hide Passing; hide Settled; hide CheckpointOk;
      hide Halted; hide Goes; hide Step; hide InLabelOrder; hide StampsOk; hide KnownOk; hide TraceOk;
      hide SinceOk; hide HeldOk; hide RunningOk; hide Elements; hide Confined; hide Beside; hide Narrow; hide Spared;
      hide Steady;
      hide CheckedWell; hide Delivered;
      ghost var g, running, keys, used, t := G(), Elements(stack), Busy(held), lastUsed, touches;
      CheckBegins(cfg, world, depth, calm, calmDepth, g, running, held, q, used, t);
      var deps, j := records[q].deps, 0;
      ok, dirty := true, false;
      while ok && !dirty && j < |deps|
        invariant stack == old(stack) && Inv(cfg, world, G()) && Stops(ok) && j <= |deps| && (ok ==> Inside(held, {q}))
        invariant MarksMove(world, g, G(), used, t, lastUsed, touches)
        invariant CheckedWell(cfg, world, depth, calm, calmDepth, g, G(), q, keys, j, ok, dirty,
                    Fine(ok, stopped, records))
        invariant ok || stopped.Some? || Faults(q)
        invariant ok && q in held ==> j <= held[q] && G() == g && !dirty
        decreases |deps| - j
      {
        ghost var g1, used1, t1 := G(), lastUsed, touches;
        ok, dirty := CheckNext(q, j, g, held);
        MarksTwice(world, g, g1, G(), used, t, used1, t1, lastUsed, touches);
        j := j + 1;
      }
      AllChecked(cfg, world, depth, calm, calmDepth, g, G(), q, keys, j, ok, dirty, Fine(ok, stopped, records));
    }

    /** Goes on to dependency `j` of a verification begun in `g`. */
    method CheckNext(q: Key, j: nat, ghost g: Graph, ghost held: map<Key, nat>) returns (ok: bool, dirty: bool)
      requires q.Query? && q in g.recs && Inside(held, {q}) && q !in stack && !g.recs[q].untracked
      requires CheckedWell(cfg, world, depth, calm, calmDepth, g, G(), q, Busy(held), j, true, false, true)
      requires j < |g.recs[q].deps| && (q in held ==> j <= held[q] && G() == g)
      modifies this`revision, this`records, this`known, this`stack, this`lastUsed, this`touches, this`proof,
        this`stopped, this`evidence
      ensures stack == old(stack) && Inv(cfg, world, G()) && Stops(ok) && (ok ==> Inside(held, {q}))
      ensures MarksMove(world, old(G()), G(), old(lastUsed), old(touches), lastUsed, touches)
      ensures CheckedWell(cfg, world, depth, calm, calmDepth, g, G(), q, Busy(held), j + 1, ok, dirty,
                Fine(ok, stopped, records))
      ensures ok || stopped.Some? || Faults(q)
      ensures ok && q in held ==> j + 1 <= held[q] && !dirty && G() == g
      decreases Room(cfg.prog, stack), Slack(cfg.prog, held.Keys + {q}), 0, proof.rank(q.id), 7
    {
      hide Faulted; hide MarksMove; hide MarksOk; hide AnswersIn; hide Room; hide Slack; hide Inv; hide Advances;
      hide InRequest; hide Falls; hide InCalm; hide Reason; hide Passing; hide Settled; hide CheckpointOk;
      hide Halted; hide CheckedWell; hide Elements; hide Spared;
      ghost var g1, keys := G(), Busy(held);
      CheckedStands(cfg, world, depth, calm, calmDepth, g, g1, q, keys, j);
      ok, dirty := CheckDependency(q, j, held);
      CheckedMore(cfg, world, depth, calm, calmDepth, g, g1, G(), q, keys, j, ok, dirty, Fine(ok, stopped, records));
      CheckedInside(cfg, world, depth, calm, calmDepth, g1, G(), q, Elements(stack), held, j + 1, ok, dirty,
        Fine(ok, stopped, records));
    }

    /** Runs the body of `q` and commits what it produced. */
    method ExecuteQuery(q: Key, ghost held: map<Key, nat>) returns (ok: bool)
      requires q.Query? && q in known && q !in stack && q !in held && !Settled(world, G(), q) && Reason(world, G(), q)
      requires InRequest(cfg, world, G(), Elements(stack) + {q}, held, {}) && Open()
      modifies this`revision, this`records, this`known, this`stack, this`lastUsed, this`touches, this`proof,
        this`stopped, this`evidence
      ensures stack == old(stack) && Inv(cfg, world, G()) && Advances(world, old(G()), G(), Busy(held)) && Stops(ok)
      ensures MarksMove(world, old(G()), G(), old(lastUsed), old(touches), lastUsed, touches)
      ensures ok ==> q in records && Settled(world, G(), q)
      ensures !ok ==> !Settled(world, G(), q)
      ensures ok || stopped.Some? || Faults(q)
      ensures Goes(cfg, world, depth, old(G()), G(), q, Busy(held), Fine(ok, stopped, records), depth(q.id) + 1)
      decreases Room(cfg.prog, stack + [q]), Slack(cfg.prog, held.Keys), 6
    {
      hide Faulted;
      hide MarksMove; hide MarksOk;
      hide Goes; hide AnswersIn; hide Room; hide Slack; hide Inv; hide Advances; hide InRequest; hide Falls;
      hide Reason; hide Reading; hide Settled; hide Change; hide CheckpointOk; hide Halted; hide Elements;
      hide Step;
      ghost var g, keys, used, t0 := G(), Busy(held), lastUsed, touches;
      KnownProgram(cfg, world, g, Elements(stack) + {q}, held, q);
      Pushed(stack, held.Keys, q);
      var value, deps, untracked, t := RunOnStack(q, held);
      KeepsOne(world, g, G(), keys, q);
      GoesWider(cfg, world, depth, g, G(), q, keys, Fine(value.Some?, stopped, records), depth(q.id), depth(q.id) + 1);
      if value.None? { return false; }
      ReasonStays(world, g, G(), keys, q);
      ghost var g1 := G();
      Commit(q, value.value, deps, untracked, t);
      ChangeAdvances(world, g1, G(), q, keys);
      GoesChange(cfg, world, depth, g, g1, G(), q, keys, true, depth(q.id) + 1);
      AdvancesTwice(world, g, g1, G(), keys);
      MarksThen(world, g, g1, G(), used, t0, lastUsed, touches, keys);
      return true;
    }

    /** Runs the body of `q`, which is on the stack meanwhile. */
    method RunOnStack(q: Key, ghost held: map<Key, nat>)
      returns (value: Option<Value>, deps: seq<Key>, untracked: bool, ghost t: Trace)
      requires q.Query? && q.id in cfg.prog && q !in stack && q !in held
      requires InRequest(cfg, world, G(), Elements(stack) + {q}, held, {}) && Open()
      modifies this`revision, this`records, this`known, this`stack, this`lastUsed, this`touches, this`proof,
        this`stopped, this`evidence
      ensures stack == old(stack) && Inv(cfg, world, G()) && Advances(world, old(G()), G(), Busy(held) + {q})
      ensures Stops(value.Some?)
      ensures MarksMove(world, old(G()), G(), old(lastUsed), old(touches), lastUsed, touches)
      ensures value.Some? ==>
        Reading(world, G(), cfg.prog[q.id], t, deps, untracked) && cfg.prog[q.id].step(t.answers) == Done(value.value)
      ensures InLabelOrder(cfg.labelOf, deps)
      ensures value.Some? || stopped.Some? || Faults(q)
      ensures Goes(cfg, world, depth, old(G()), G(), q, Busy(held), Fine(value.Some?, stopped, records), depth(q.id))
      decreases Room(cfg.prog, stack + [q]), Slack(cfg.prog, held.Keys), 5
    {
      hide Faulted; hide HasRead; hide BodyFaulted;
      hide MarksMove; hide MarksOk;
      hide Goes; hide AnswersIn; hide Room; hide Slack; hide Inv; hide Advances; hide InRequest; hide Falls;
      hide Elements; hide Reading; hide CheckpointOk; hide Halted; hide InLabelOrder; hide Step;
      Pushed(stack, held.Keys, q);
      stack := stack + [q];
      value, deps, untracked, t := RunBody(q, held);
      HaltsBelow(cfg, world, G(), checkpoint, stopped, evidence, old(stack), q);
      stack := stack[..|stack| - 1];
      if value.None? && stopped.None? { FaultOfBody(cfg, world, AtStart(), Elements(stack), q, t); }
    }

    /** The body of the query on top of the stack, one read after another. None: it raised. */
    method RunBody(q: Key, ghost held: map<Key, nat>)
      returns (value: Option<Value>, deps: seq<Key>, untracked: bool, ghost t: Trace)
      requires q.Query? && q.id in cfg.prog && Inside(held, {})
      modifies this`revision, this`records, this`known, this`stack, this`lastUsed, this`touches, this`proof,
        this`stopped, this`evidence
      ensures stack == old(stack) && Inv(cfg, world, G()) && Advances(world, old(G()), G(), Busy(held))
      ensures Stops(value.Some?)
      ensures MarksMove(world, old(G()), G(), old(lastUsed), old(touches), lastUsed, touches)
      ensures value.Some? ==>
        Reading(world, G(), cfg.prog[q.id], t, deps, untracked) && cfg.prog[q.id].step(t.answers) == Done(value.value)
      ensures InLabelOrder(cfg.labelOf, deps)
      ensures value.Some? || stopped.Some? || BodyFaulted(cfg, world, AtStart(), Elements(stack), q, t)
      ensures Goes(cfg, world, depth, old(G()), G(), q, Busy(held) - {q}, Fine(value.Some?, stopped, records),
                depth(q.id))
      decreases Room(cfg.prog, stack), Slack(cfg.prog, held.Keys), 4
    {
      hide Faulted; hide HasRead; hide BodyFaulted;
      hide MarksMove; hide MarksOk;
      hide Step; hide HeldOk; hide AnswersIn; hide Room; hide Slack; hide Inv; hide Advances; hide InRequest;
      hide Falls; hide InCalm; hide Reading; hide Settled; hide CheckpointOk; hide Halted; hide Confined; hide Beside;
      hide Narrow;
      hide Goes; hide BodyAt; hide InLabelOrder;
      ghost var g, running, keys, used, t0 := G(), Elements(stack), Busy(held), lastUsed, touches;
      StandsStill(world, g, keys);
      MarksStill(world, g, g, lastUsed, touches, keys);
      InvInRequest(cfg, world, g, running, held, {});
      var body := cfg.prog[q.id];
      var answers: seq<Answer> := [];
      deps, untracked, t := [], false, Trace([], []);
      NothingHeard(cfg, world, AtStart(), q);
      BodyBegun(cfg, world, depth, g, q, keys);
      var move, ok := body.step(answers), true;
      while ok && move.Ask?
        invariant stack == old(stack) && Inv(cfg, world, G()) && Stops(ok) && (ok ==> Inside(held, {}))
        invariant MarksMove(world, g, G(), used, t0, lastUsed, touches)
        invariant answers == t.answers && move == body.step(answers) && HasRead(cfg, world, AtStart(), q, t)
        invariant ok || stopped.Some? || (move.Ask? && Faults(move.key))
        invariant BodyAt(cfg, world, depth, g, G(), q, keys, t, deps, untracked, ok, Fine(ok, stopped, records))
        decreases ok, body.bound - |answers|
      {
        ghost var g1, used1, t1 := G(), lastUsed, touches;
        var a: Answer;
        ok, a, deps, untracked, t := ReadOn(q, move.key, g, t, deps, untracked, held);
        MarksTwice(world, g, g1, G(), used, t0, used1, t1, lastUsed, touches);
        if ok {
          answers := answers + [a];
          move := body.step(answers);
        }
      }
      BodyOver(cfg, world, depth, g, G(), q, keys, t, deps, untracked, ok, Fine(ok, stopped, records));
      BodyFails(cfg, world, AtStart(), Elements(stack), q, t);
      value := if ok && move.Done? then Some(move.result) else None;
    }

    /** The body of `q`, begun in `g`, reads `k`. */
    method ReadOn(q: Key, k: Key, ghost g: Graph, ghost t: Trace, deps: seq<Key>, untracked: bool,
        ghost held: map<Key, nat>)
      returns (ok: bool, a: Answer, deps': seq<Key>, untracked': bool, ghost t': Trace)
      requires q.Query? && q.id in cfg.prog && Inside(held, {}) && cfg.prog[q.id].step(t.answers) == Ask(k)
      requires BodyAt(cfg, world, depth, g, G(), q, Busy(held), t, deps, untracked, true, true)
      requires HasRead(cfg, world, AtStart(), q, t)
      modifies this`revision, this`records, this`known, this`stack, this`lastUsed, this`touches, this`proof,
        this`stopped, this`evidence
      ensures stack == old(stack) && Inv(cfg, world, G()) && Stops(ok) && (ok ==> Inside(held, {}))
      ensures MarksMove(world, old(G()), G(), old(lastUsed), old(touches), lastUsed, touches)
      ensures BodyAt(cfg, world, depth, g, G(), q, Busy(held), t', deps', untracked', ok, Fine(ok, stopped, records))
      ensures HasRead(cfg, world, AtStart(), q, t')
      ensures if ok then t' == Trace(t.keys + [k], t.answers + [a]) else t' == t && (stopped.Some? || Faults(k))
      decreases Room(cfg.prog, stack), Slack(cfg.prog, held.Keys), 3, 1
    {
      hide Faulted; hide HasRead; hide MarksMove; hide MarksOk; hide Step; hide HeldOk; hide AnswersIn; hide Room;
      hide Slack; hide Inv; hide Advances; hide InRequest; hide Falls; hide InCalm; hide Reading; hide Settled;
      hide CheckpointOk; hide Halted; hide Confined; hide Beside; hide Narrow; hide Goes; hide BodyAt;
      hide InLabelOrder;
      ghost var g1, running, keys := G(), Elements(stack), Busy(held);
      ok, a := ReadNode(k, held);
      StillInRequest(cfg, world, g1, G(), running, held, {});
      BodyReadsOne(cfg, world, depth, g, g1, G(), q, keys, t, deps, untracked, k, a, ok, Fine(ok, stopped, records));
      deps', untracked', t' := deps, untracked, t;
      if ok {
        HeardMore(cfg, world, G(), q, t, k, a);
        t' := Trace(t.keys + [k], t.answers + [a]);
        deps', untracked' := if k.Ambient? then deps else InsertByLabel(cfg.labelOf, deps, k), untracked || k.Ambient?;
      }
    }

    /** Stores what an execution produced. */
    method Commit(q: Key, v: Value, deps: seq<Key>, untracked: bool, ghost t: Trace)
      requires Inv(cfg, world, G()) && Reason(world, G(), q) && q.Query? && q.id in cfg.prog && q in known
      requires !Settled(world, G(), q)
      requires Reading(world, G(), cfg.prog[q.id], t, deps, untracked) && cfg.prog[q.id].step(t.answers) == Done(v)
      requires InLabelOrder(cfg.labelOf, deps)
      modifies this`revision, this`records, this`proof
      ensures Inv(cfg, world, G()) && Change(world, old(G()), G(), q)
      ensures q in records && records[q] == Landed(old(G()), q, Val(v), deps, untracked)
    {
      hide AnswersIn; hide Room; hide Slack; hide Inv; hide Reason; hide Reading; hide Settled; hide Executed;
      hide Change;
      var rec := Land(q, Val(v), deps, untracked);
      ghost var g := G();
      ReadingDone(cfg, world, g, q, t, rec);
      ghost var g' := CommitStep(cfg, world, g, q, t, rec.answer, rec, true);
      revision, records, proof := rec.verifiedAt, records[q := rec], ProofOf(g');
    }

    /** Where a value that was just computed lands. A first execution takes the revision as it is; a
        value equal to the stored one keeps its stamp; any other moves the revision. */
    method Land(q: Key, a: Answer, deps: seq<Key>, untracked: bool) returns (rec: Record)
      ensures rec == Landed(G(), q, a, deps, untracked)
    {
      if q !in records {
        return Record(a, revision, revision, deps, untracked, 0, requestId, false);
      }
      var same := records[q].answer == a;
      var backdated := !untracked && same;
      if backdated || (untracked && same) {
        return Record(a, records[q].changedAt, revision, deps, untracked, 0, requestId, false);
      }
      return Record(a, revision + 1, revision + 1, deps, untracked, 0, requestId, false);
    }

    /** One read of a running body. */
    method ReadNode(k: Key, ghost held: map<Key, nat>) returns (ok: bool, a: Answer)
      requires Inside(held, {})
      modifies this`revision, this`records, this`known, this`stack, this`lastUsed, this`touches, this`proof,
        this`stopped, this`evidence
      ensures stack == old(stack) && Inv(cfg, world, G()) && Advances(world, old(G()), G(), Busy(held)) && Stops(ok)
      ensures MarksMove(world, old(G()), G(), old(lastUsed), old(touches), lastUsed, touches)
      ensures ok ==> Settled(world, G(), k) && Now(world, G(), k) == a
      ensures k.Query? ==> Delivers(old(G()), k, Busy(held), ok)
      ensures ok || stopped.Some? || Faults(k)
      ensures !k.Query? ==> (Answers(world, start.Keys, k) ==> ok) && Beside(cfg, world, old(G()), G(), k)
      decreases Room(cfg.prog, stack), Slack(cfg.prog, held.Keys), 3, 0
    {
      hide Faulted;
      hide MarksMove; hide MarksOk;
      hide AnswersIn; hide Room; hide Slack; hide Inv; hide Advances; hide InRequest; hide Goes; hide InCalm;
      hide CheckpointOk; hide Halted; hide Beside; hide Delivered;
      ghost var g, running, keys := G(), Elements(stack), Busy(held);
      InvInRequest(cfg, world, g, running, held, {});
      StandsStill(world, g, keys);
      MarksStill(world, g, g, lastUsed, touches, keys);
      BesideStill(cfg, world, g, k);
      StartStored(cfg, world, g, k);
      if !Answers(world, start.Keys, k) { FaultHere(cfg, world, AtStart(), running, k); }
      match k
      case Input(_) =>
        if k !in records { return false, Unobservable; }
        AtRecord(cfg, world, g, k);
        return true, records[k].answer;
      case Ambient(i) =>
        return true, Val(world.ambient(i));
      case Query(_) =>
        ok := Fetch(k, held);
        if !ok { return false, Unobservable; }
        AtRecord(cfg, world, G(), k);
        return true, records[k].answer;
      case Resource(_) =>
        WaitingForNone(cfg, world, g, running, held, k);
        var seen := RefreshResource(k);
        RefreshInRequest(cfg, world, g, G(), running, held, k);
        ResourceBeside(cfg, world, g, G(), k);
        MarksStill(world, g, G(), lastUsed, touches, keys);
        if k !in records { return false, Unobservable; }
        return true, Stands(k, records[k]);
    }

    /** Asks for a query, trying the checkpoint first if it has no record. A query that had none keeps none
        if it raises. */
    method Fetch(q: Key, ghost held: map<Key, nat>) returns (ok: bool)
      requires q.Query? && Inside(held, {})
      modifies this`revision, this`records, this`known, this`stack, this`lastUsed, this`touches, this`proof,
        this`stopped, this`evidence
      ensures stack == old(stack) && Inv(cfg, world, G()) && Advances(world, old(G()), G(), Busy(held)) && Stops(ok)
      ensures MarksMove(world, old(G()), G(), old(lastUsed), old(touches), lastUsed, touches)
      ensures ok ==> q in records && Settled(world, G(), q) && MarkedLast(q)
      ensures Delivers(old(G()), q, Busy(held), ok)
      ensures !ok && stopped.None? && old(q !in records) && q !in stack ==> q !in records && q !in known
      ensures old(q !in records && q in part && Resting(q) && AllUpToDate(G(), checkpoint, part)) ==>
        ok && Carries(records, q, checkpoint[q].answer) && proof.runs == old(proof.runs) && revision == old(revision)
      decreases Room(cfg.prog, stack), Slack(cfg.prog, held.Keys), 2, 2
    {
      hide Faulted;
      hide MarksMove; hide MarksOk;
      hide HeldOk; hide AnswersIn; hide Room; hide Slack; hide Inv; hide InRequest; hide Falls; hide InCalm;
      hide Settled; hide CheckpointOk; hide Halted; hide Intact; hide AllUpToDate; hide Goes; hide Advances;
      ghost var g := G();
      InvInRequest(cfg, world, g, Elements(stack), held, {});
      StandsStill(world, g, Busy(held));
      GoesStill(cfg, world, depth, g, q, Busy(held), depth(q.id) + 1);
      if q in records {
        ok := Ensure(q, true, g, held);
      } else {
        ok := FetchNew(q, held);
      }
    }

    /** Asks for a query that has no record. */
    method FetchNew(q: Key, ghost held: map<Key, nat>) returns (ok: bool)
      requires q.Query? && q !in records && Inside(held, {})
      modifies this`revision, this`records, this`known, this`stack, this`lastUsed, this`touches, this`proof,
        this`stopped, this`evidence
      ensures stack == old(stack) && Inv(cfg, world, G()) && Advances(world, old(G()), G(), Busy(held)) && Stops(ok)
      ensures MarksMove(world, old(G()), G(), old(lastUsed), old(touches), lastUsed, touches)
      ensures ok ==> q in records && Settled(world, G(), q) && MarkedLast(q)
      ensures Delivers(old(G()), q, Busy(held), ok)
      ensures !ok && stopped.None? && q !in stack ==> q !in records && q !in known
      ensures old(q in part && Resting(q) && AllUpToDate(G(), checkpoint, part)) ==>
        ok && Carries(records, q, checkpoint[q].answer) && proof.runs == old(proof.runs) && revision == old(revision)
      decreases Room(cfg.prog, stack), Slack(cfg.prog, held.Keys), 2, 1
    {
      hide Faulted;
      hide MarksMove; hide MarksOk;
      hide InLabelOrder; hide Spared; hide Steady; hide DepsOk; hide Step; hide HeldOk; hide Elements;
      hide AnswersIn; hide Room; hide Slack; hide Inv; hide Advances; hide InRequest; hide Falls; hide InCalm;
      hide Settled; hide CheckpointOk; hide Halted; hide Intact; hide AtRest; hide AllUpToDate; hide Goes;
      hide Carries; hide KindOf; hide Unmoved; hide AllCarry; hide Delivered;
      ghost var g, running, keys, used, t := G(), Elements(stack), Busy(held), lastUsed, touches;
      Entering(cfg, world, depth, g, running, held, q);
      MarksStill(world, g, g, lastUsed, touches, keys);
      if q in part && Resting(q) { RestingSaved(cfg, world, g, checkpoint, pinned(q), part, running, q); }
      if q in checkpoint {
        var good := TryCheckpoint(q, held);
        Tried(cfg, world, g, G(), running, held, calm, calmDepth, q);
        if stopped.Some? {
          NotDelivered(cfg, world, depth, calm, calmDepth, g, G(), q, keys, Fine(false, stopped, records));
          return false;
        }
      }
      ghost var g1, used1, t1 := G(), lastUsed, touches;
      ok := Ensure(q, false, g, held);
      MarksTwice(world, g, g1, G(), used, t, used1, t1, lastUsed, touches);
    }

    /** The attempt to restore the query that is asked for, whose query object is at hand. */
    method TryCheckpoint(q: Key, ghost held: map<Key, nat>) returns (good: bool)
      requires q.Query? && q !in records && q in checkpoint && Inside(held, {})
      modifies this`revision, this`records, this`known, this`stack, this`lastUsed, this`touches, this`proof,
        this`stopped, this`evidence
      ensures stack == old(stack) && Inv(cfg, world, G()) && Advances(world, old(G()), G(), Busy(held)) && Stops(good)
      ensures MarksMove(world, old(G()), G(), old(lastUsed), old(touches), lastUsed, touches)
      ensures good ==> Carries(records, q, checkpoint[q].answer)
      ensures Goes(cfg, world, depth, old(G()), G(), q, Busy(held), Fine(stopped.None?, stopped, records),
                depth(q.id) + 1)
      ensures old(q in part && Resting(q) && AllUpToDate(G(), checkpoint, part)) ==>
        good && Settled(world, G(), q) && proof.runs == old(proof.runs) && revision == old(revision)
      decreases Room(cfg.prog, stack), Slack(cfg.prog, held.Keys), 2, 0
    {
      hide MarksMove; hide MarksOk;
      hide Step; hide HeldOk; hide Elements; hide AnswersIn; hide Room; hide Slack; hide Inv; hide Advances;
      hide InRequest; hide Settled; hide CheckpointOk; hide Halted; hide Intact; hide Smooth; hide UpToDate;
      hide Goes;
      ghost var g, running, keys, resting := G(), Elements(stack), Busy(held), Resting(q);
      ghost var used, t := lastUsed, touches;
      ghost var g1 := Learn(cfg, world, g, running, held, {}, q);
      known := known + {q};
      LearnIntact(cfg, world, g, g1, checkpoint, pinned(q), part);
      good := WarmRecord(q, q, held);
      AdvancesTwice(world, g, g1, G(), keys);
      MarksStill(world, g, g1, used, t, keys);
      MarksTwice(world, g, g1, G(), used, t, used, t, lastUsed, touches);
      GoesFrom(cfg, world, depth, g, g1, G(), q, keys, Fine(stopped.None?, stopped, records), depth(q.id) + 1);
      if resting && q in part && AllUpToDate(g, checkpoint, part) {
        SmoothSettles(cfg, world, checkpoint, part, g1, G(), order, Bound(q), q);
      }
    }

    /** Brings `q` up to date. `had`: it had a record when this was begun, in state `g0`; otherwise a raise
        takes back what has come up since. */
    method Ensure(q: Key, had: bool, ghost g0: Graph, ghost held: map<Key, nat>) returns (ok: bool)
      requires q.Query? && Inside(held, {}) && Advances(world, g0, G(), Busy(held))
      requires Goes(cfg, world, depth, g0, G(), q, Busy(held), true, depth(q.id) + 1)
      requires !had ==> q !in g0.recs && q !in start && q !in held
      modifies this`revision, this`records, this`known, this`stack, this`lastUsed, this`touches, this`proof,
        this`stopped, this`evidence
      ensures stack == old(stack) && Inv(cfg, world, G()) && Advances(world, g0, G(), Busy(held)) && Stops(ok)
      ensures MarksMove(world, old(G()), G(), old(lastUsed), old(touches), lastUsed, touches)
      ensures ok ==> q in records && Settled(world, G(), q) && MarkedLast(q)
      ensures Delivers(g0, q, Busy(held), ok)
      ensures !ok && stopped.None? && !had && q !in stack ==> q !in records && q !in known
      ensures old(Settled(world, G(), q)) ==>
        ok && records == old(records) && proof.runs == old(proof.runs) && revision == old(revision)
      decreases Room(cfg.prog, stack), Slack(cfg.prog, held.Keys), 1, 0, 0
    {
      hide Faulted;
      hide MarksMove; hide MarksOk;
      hide Steady; hide Passing; hide Step; hide HeldOk; hide AnswersIn; hide Room; hide Slack; hide Inv;
      hide Advances; hide InRequest; hide Falls; hide InCalm; hide Settled; hide CheckpointOk; hide Halted;
      hide Confined; hide Beside; hide Narrow;
      ghost var g, keys, used, t := G(), Busy(held), lastUsed, touches;
      ok := EnsureLearned(q, g0, held);
      if !ok && !had && stopped.None? {
        ghost var g2, used2, t2 := G(), lastUsed, touches;
        Discard(q, g0, keys);
        MarksTwice(world, g, g2, G(), used, t, used2, t2, lastUsed, touches);
        SureAgain(cfg, world, g2, G(), depth, calm, calmDepth, q, keys);
        NarrowLess(cfg, world, g0, g2, G(), q);
      }
    }

    /** Brings `q` up to date, its query object being at hand. */
    method EnsureLearned(q: Key, ghost g0: Graph, ghost held: map<Key, nat>) returns (ok: bool)
      requires q.Query? && Inside(held, {}) && Advances(world, g0, G(), Busy(held))
      requires Goes(cfg, world, depth, g0, G(), q, Busy(held), true, depth(q.id) + 1)
      modifies this`revision, this`records, this`known, this`stack, this`lastUsed, this`touches, this`proof,
        this`stopped, this`evidence
      ensures stack == old(stack) && Inv(cfg, world, G()) && Advances(world, g0, G(), Busy(held)) && Stops(ok)
      ensures MarksMove(world, old(G()), G(), old(lastUsed), old(touches), lastUsed, touches)
      ensures if ok then q in records && Settled(world, G(), q) && MarkedLast(q) else !Settled(world, G(), q)
      ensures Delivers(g0, q, Busy(held), ok)
      ensures old(Settled(world, G(), q)) ==>
        ok && records == old(records) && proof.runs == old(proof.runs) && revision == old(revision)
      decreases Room(cfg.prog, stack), Slack(cfg.prog, held.Keys), 1, 0, -1
    {
      hide Faulted; hide MarksMove; hide MarksOk; hide Step; hide HeldOk; hide AnswersIn; hide Room; hide Slack;
      hide Inv; hide Advances; hide InRequest; hide Falls; hide InCalm; hide Settled; hide CheckpointOk; hide Halted;
      hide Confined; hide Beside; hide Narrow; hide Goes;
      ghost var g, running, keys, used, t := G(), Elements(stack), Busy(held), lastUsed, touches;
      ghost var g1 := Learn(cfg, world, g, running, held, {}, q);
      known := known + {q};
      WaitingForNone(cfg, world, g1, running, held, q);
      ok := EnsureQuery(q, held);
      MarksStill(world, g, g1, used, t, keys);
      MarksTwice(world, g, g1, G(), used, t, used, t, lastUsed, touches);
      LearnedOn(cfg, world, depth, g0, g, g1, G(), q, keys, Fine(ok, stopped, records));
    }

    /** Takes back what a failed evaluation of `q` left, unless an execution of `q` is still under way. */
    method Discard(q: Key, ghost g0: Graph, ghost keys: set<Key>)
      requires Inv(cfg, world, G()) && Open() && q.Query? && !Settled(world, G(), q) && Advances(world, g0, G(), keys)
      requires q !in g0.recs && q !in start && (q in keys ==> q in stack)
      modifies this`records, this`known, this`lastUsed, this`stopped, this`evidence
      ensures Inv(cfg, world, G()) && Advances(world, g0, G(), keys) && Stops(false) && proof == old(proof)
      ensures records == old(records) || records == old(records) - {q}
      ensures MarksMove(world, old(G()), G(), old(lastUsed), old(touches), lastUsed, touches)
      ensures stopped.None? && q !in stack ==> q !in records && q !in known
    {
      hide Inv; hide Advances; hide Settled; hide CheckpointOk; hide Unread; hide MarksMove; hide MarksOk; hide Halted;
      hide AnswersIn;
      ghost var g := G();
      StandsStill(world, g, {});
      MarksStill(world, g, g, lastUsed, touches, {});
      if q in stack { return; }
      if q in records && !Unread(records, q) {
        stopped, evidence := Some(Discarded(q)), Evidence(g0, map[], stack);
        ReadStops(cfg, world, g0, g, checkpoint, keys, q, evidence);
      } else {
        Drop(q, g0, keys);
      }
    }

    /** Removes a query record that nothing reads, if there is one, and its query object. */
    method Drop(q: Key, ghost g0: Graph, ghost keys: set<Key>)
      requires Inv(cfg, world, G()) && q.Query? && !Settled(world, G(), q) && Advances(world, g0, G(), keys)
      requires q !in g0.recs && q !in start && q !in keys && (q in records ==> Unread(records, q))
      requires MarksOk(lastUsed, touches)
      modifies this`records, this`known, this`lastUsed
      ensures Inv(cfg, world, G()) && Advances(world, g0, G(), keys) && MarksOk(lastUsed, touches)
      ensures MarksMove(world, old(G()), G(), old(lastUsed), touches, lastUsed, touches)
      ensures records == old(records) - {q} && q !in known
    {
      hide Inv; hide Advances; hide Settled; hide Unread; hide MarksMove; hide MarksOk; hide AnswersIn;
      ghost var g := G();
      DropAdvances(world, g0, g, q, keys);
      if q in records {
        DropStep(cfg, world, g, q);
      } else {
        assert records - {q} == records;
        LearnKeeps(cfg, world, g, Dropped(g, q));
      }
      MarksDropped(world, g, lastUsed, touches, q);
      records, known, lastUsed := records - {q}, known - {q}, lastUsed - {q};
    }

    // -------------------------------------------------------------------------------------------
    // Restoring from the checkpoint

    /** Everything `part` was computed from reads as saved, and none of its queries is running. */
    ghost predicate Resting(root: Key)
      reads this
    {
      AtRest(cfg, world, G(), checkpoint, pinned(root), part, Elements(stack))
    }

    ghost function Number(q: Key): nat
      reads this
    {
      if q in order then order[q] else 0
    }

    ghost function Bound(d: Key): nat
      reads this
    {
      if d in checkpoint then Number(d) + 1 else 0
    }

    /** Is `d` what it was when the checkpoint was saved? A record is taken as it stands. Without one, a
        resource is refreshed; a query is restored in turn, or else run. */
    method VerifyDep(root: Key, d: Key, expected: Answer, ghost held: map<Key, nat>) returns (good: bool)
      requires !d.Ambient? && Inside(held, {})
      modifies this`revision, this`records, this`known, this`stack, this`lastUsed, this`touches, this`proof,
        this`stopped, this`evidence
      ensures stack == old(stack) && Inv(cfg, world, G()) && Stops(good)
      ensures MarksMove(world, old(G()), G(), old(lastUsed), old(touches), lastUsed, touches)
      ensures OneLooked(cfg, world, depth, old(G()), G(), d, Busy(held), expected, good,
                Fine(stopped.None?, stopped, records))
      ensures old(Resting(root) && Unmoved(cfg, world, G(), checkpoint, pinned(root), part, d, expected)) ==>
        good && Resting(root) && Smooth(checkpoint, part, old(G()), G(), order, Bound(d))
      decreases Room(cfg.prog, stack), Slack(cfg.prog, held.Keys), 1, Bound(d), 3
    {
      hide MarksMove; hide MarksOk;
      hide AnswersIn; hide Room; hide Slack; hide Inv; hide Advances; hide InRequest; hide CheckpointOk;
      hide Halted; hide Intact; hide AtRest; hide Smooth; hide Step; hide Elements; hide HeldOk; hide Falls;
      hide InCalm; hide Unmoved;
      ghost var g, running, keys := G(), Elements(stack), Busy(held);
      InvInRequest(cfg, world, g, running, held, {});
      StandsStill(world, g, keys);
      MarksStill(world, g, g, lastUsed, touches, keys);
      GoesStill(cfg, world, depth, g, d, keys, depth(d.id) + 1);
      SmoothStill(checkpoint, part, g, order, Bound(d));
      UnmovedMeans(cfg, world, g, checkpoint, pinned(root), part, d, expected);
      if d in records || d.Input? {
        good := Carries(records, d, expected);
      } else if d !in pinned(root) {
        good := false;
      } else if d.Resource? {
        good := VerifyResourceDep(root, d, expected, held);
        MarksStill(world, g, G(), lastUsed, touches, keys);
      } else {
        good := VerifyQueryDep(root, d, expected, held);
      }
    }

    /** A resource without a record is refreshed. */
    method VerifyResourceDep(root: Key, d: Key, expected: Answer, ghost held: map<Key, nat>) returns (good: bool)
      requires d.Resource? && d !in records && Inside(held, {})
      modifies this`revision, this`records
      ensures Inv(cfg, world, G()) && Advances(world, old(G()), G(), Busy(held))
      ensures (good ==> Carries(records, d, expected)) && Beside(cfg, world, old(G()), G(), d)
      ensures old(Resting(root) && Unmoved(cfg, world, G(), checkpoint, pinned(root), part, d, expected)) ==>
        good && Resting(root) && Smooth(checkpoint, part, old(G()), G(), order, Bound(d))
    {
      hide AnswersIn; hide Inv; hide Advances; hide InRequest; hide CheckpointOk; hide Intact; hide Smooth;
      hide Step; hide Elements; hide HeldOk; hide Unmoved;
      ghost var g, running := G(), Elements(stack);
      InvInRequest(cfg, world, g, running, held, {});
      WaitingForNone(cfg, world, g, running, held, d);
      var seen := RefreshResource(d);
      RefreshInRequest(cfg, world, g, G(), running, held, d);
      ResourceBeside(cfg, world, g, G(), d);
      if Unmoved(cfg, world, g, checkpoint, pinned(root), part, d, expected) {
        LoadedIntact(cfg, world, g, G(), checkpoint, pinned(root), part, order, d, expected, Bound(d));
      }
      return seen == Answered && Carries(records, d, expected);
    }

    /** A query without a record is restored in turn, or else run. */
    method VerifyQueryDep(root: Key, d: Key, expected: Answer, ghost held: map<Key, nat>) returns (good: bool)
      requires d.Query? && d !in records && d in pinned(root) && Inside(held, {})
      modifies this`revision, this`records, this`known, this`stack, this`lastUsed, this`touches, this`proof,
        this`stopped, this`evidence
      ensures stack == old(stack) && Inv(cfg, world, G()) && Advances(world, old(G()), G(), Busy(held)) && Stops(good)
      ensures MarksMove(world, old(G()), G(), old(lastUsed), old(touches), lastUsed, touches)
      ensures good ==> Carries(records, d, expected)
      ensures Goes(cfg, world, depth, old(G()), G(), d, Busy(held), Fine(stopped.None?, stopped, records),
                depth(d.id) + 1)
      ensures old(Resting(root) && Unmoved(cfg, world, G(), checkpoint, pinned(root), part, d, expected)) ==>
        good && Resting(root) && Smooth(checkpoint, part, old(G()), G(), order, Bound(d))
      decreases Room(cfg.prog, stack), Slack(cfg.prog, held.Keys), 1, Bound(d), 2
    {
      hide Faulted;
      hide MarksMove; hide MarksOk;
      hide AnswersIn; hide Room; hide Slack; hide Inv; hide Advances; hide InRequest; hide CheckpointOk;
      hide Halted; hide Intact; hide AtRest; hide Smooth; hide Step; hide Elements; hide HeldOk; hide Falls;
      hide InCalm; hide Confined; hide Beside; hide Narrow; hide Unmoved;
      ghost var g, running, keys, used, t := G(), Elements(stack), Busy(held), lastUsed, touches;
      Entering(cfg, world, depth, g, running, held, d);
      MarksStill(world, g, g, lastUsed, touches, keys);
      UnmovedMeans(cfg, world, g, checkpoint, pinned(root), part, d, expected);
      good := false;
      if d in checkpoint { good := WarmRecord(root, d, held); }
      if good {
        good := Carries(records, d, expected);
      } else if stopped.None? && (d in checkpoint ==> !checkpoint[d].untracked) {
        StillInRequest(cfg, world, g, G(), running, held, {});
        ghost var g1, used1, t1 := G(), lastUsed, touches;
        good := ExecuteToVerify(d, expected, g, held);
        MarksTwice(world, g, g1, G(), used, t, used1, t1, lastUsed, touches);
      }
    }

    /** Runs the query, and compares. It had no record in state `g`. */
    method ExecuteToVerify(d: Key, expected: Answer, ghost g: Graph, ghost held: map<Key, nat>) returns (good: bool)
      requires d.Query? && Inside(held, {}) && Advances(world, g, G(), Busy(held))
      requires d !in g.recs && d !in start && d !in held
      requires Goes(cfg, world, depth, g, G(), d, Busy(held), true, depth(d.id) + 1)
      modifies this`revision, this`records, this`known, this`stack, this`lastUsed, this`touches, this`proof,
        this`stopped, this`evidence
      ensures stack == old(stack) && Inv(cfg, world, G()) && Advances(world, g, G(), Busy(held)) && Stops(good)
      ensures MarksMove(world, old(G()), G(), old(lastUsed), old(touches), lastUsed, touches)
      ensures good ==> Carries(records, d, expected)
      ensures Goes(cfg, world, depth, g, G(), d, Busy(held), Fine(stopped.None?, stopped, records),
                depth(d.id) + 1)
      decreases Room(cfg.prog, stack), Slack(cfg.prog, held.Keys), 1, 0, 1
    {
      hide Faulted;
      hide MarksMove; hide MarksOk;
      hide AnswersIn; hide Room; hide Slack; hide Inv; hide Advances; hide InRequest; hide CheckpointOk;
      hide Halted; hide Step; hide Elements; hide HeldOk; hide Falls; hide InCalm; hide Confined; hide Beside;
      hide Narrow; hide Carries;
      hide Settled;
      var ok := Ensure(d, false, g, held);
      good := ok && Carries(records, d, expected);
    }

    /** Looks at the dependencies of a saved record, kind by kind, until one has failed. `seen` are the states in
        which they were found good. */
    method VerifyDeps(root: Key, q: Key, ghost held: map<Key, nat>) returns (good: bool, ghost seen: map<Key, Graph>)
      requires q in checkpoint && !checkpoint[q].untracked && q !in start && Inside(held, {})
      modifies this`revision, this`records, this`known, this`stack, this`lastUsed, this`touches, this`proof,
        this`stopped, this`evidence
      ensures stack == old(stack) && Inv(cfg, world, G()) && Advances(world, old(G()), G(), Busy(held)) && Stops(good)
      ensures MarksMove(world, old(G()), G(), old(lastUsed), old(touches), lastUsed, touches)
      ensures good && revision == old(revision) ==> AllCarry(records, checkpoint[q].deps)
      ensures AllSeen(world, old(G()), G(), checkpoint[q].deps, seen) && KindByKind(checkpoint[q].deps.Keys, seen.Keys)
      ensures good <==> seen.Keys == checkpoint[q].deps.Keys
      ensures Goes(cfg, world, depth, old(G()), G(), q, Busy(held), Fine(stopped.None?, stopped, records), depth(q.id))
      ensures q in part && old(Resting(root)) ==>
        good && Resting(root) && Smooth(checkpoint, part, old(G()), G(), order, Number(q))
      decreases Room(cfg.prog, stack), Slack(cfg.prog, held.Keys), 1, Bound(q), -1
    {
      hide MarksMove; hide MarksOk;
      hide AnswersIn; hide Room; hide Slack; hide Inv; hide Advances; hide InRequest; hide CheckpointOk;
      hide Halted; hide Intact; hide AtRest; hide Smooth; hide Unmoved; hide Carries; hide Step; hide Elements;
      hide HeldOk; hide AllSeen; hide SavedSound; hide Goes; hide Confined; hide Beside; hide Narrow; hide KindOf;
      hide Looked;
      hide KindByKind;
      ghost var g, running, keys, resting := G(), Elements(stack), Busy(held), q in part && Resting(root);
      InvInRequest(cfg, world, g, running, held, {});
      StandsStill(world, g, keys);
      MarksStill(world, g, g, lastUsed, touches, keys);
      ghost var used, t := lastUsed, touches;
      SavedAt(cfg.prog, checkpoint, order, q);
      ghost var s, n := checkpoint[q], Number(q);
      assert SavedHere(g, q, s);
      var deps := checkpoint[q].deps;
      SmoothStill(checkpoint, part, g, order, n);
      var rest := deps.Keys;
      seen := map[];
      good := true;
      NothingLooked(cfg, world, depth, g, q, keys, deps);
      while good && rest != {}
        invariant stack == old(stack) && Inv(cfg, world, G()) && Stops(good)
        invariant MarksMove(world, old(G()), G(), old(lastUsed), old(touches), lastUsed, touches)
        invariant !good ==> rest != {}
        invariant Looked(cfg, world, depth, g, G(), q, keys, deps, rest, seen, Fine(stopped.None?, stopped, records))
        invariant resting ==> good && Resting(root) && Smooth(checkpoint, part, g, G(), order, n)
        decreases rest, good
      {
        ghost var g1, used1, t1 := G(), lastUsed, touches;
        var d := NextByKind(rest);
        ghost var m := Bound(d);
        RestListed(cfg, world, depth, g, g1, q, keys, deps, rest, seen, true, d);
        LookedStill(cfg, world, depth, g, g1, running, held, q, deps, rest, seen);
        if resting { RestingAt(cfg, world, g1, checkpoint, pinned(root), part, Elements(stack), q, d); }
        good := VerifyDep(root, d, deps[d], held);
        ghost var g2 := G();
        MarksTwice(world, g, g1, g2, used, t, used1, t1, lastUsed, touches);
        LookedMore(cfg, world, depth, g, g1, g2, q, s, keys, rest, seen, d, good,
          Fine(stopped.None?, stopped, records));
        if resting { SmoothMore(checkpoint, part, g, g1, g2, order, n, m); }
        if good { rest, seen := rest - {d}, seen[d := g2]; }
      }
      AllLooked(cfg, world, depth, g, G(), q, keys, deps, rest, seen, good, Fine(stopped.None?, stopped, records));
    }

    /** Tries to restore a saved query that has no record. */
    method WarmRecord(root: Key, q: Key, ghost held: map<Key, nat>) returns (good: bool)
      requires q in checkpoint && q !in records && Inside(held, {})
      modifies this`revision, this`records, this`known, this`stack, this`lastUsed, this`touches, this`proof,
        this`stopped, this`evidence
      ensures stack == old(stack) && Inv(cfg, world, G()) && Advances(world, old(G()), G(), Busy(held)) && Stops(good)
      ensures MarksMove(world, old(G()), G(), old(lastUsed), old(touches), lastUsed, touches)
      ensures good ==> Carries(records, q, checkpoint[q].answer)
      ensures Goes(cfg, world, depth, old(G()), G(), q, Busy(held), Fine(stopped.None?, stopped, records),
                depth(q.id) + 1)
      ensures q in part && old(Resting(root)) ==>
        good && Resting(root) && Smooth(checkpoint, part, old(G()), G(), order, Bound(q))
      decreases Room(cfg.prog, stack), Slack(cfg.prog, held.Keys), 1, Bound(q), 1
    {
      hide MarksMove; hide MarksOk; hide Spared; hide AnswersIn; hide Room; hide Slack; hide Inv; hide Advances;
      hide InRequest; hide CheckpointOk; hide Halted; hide AtRest; hide Smooth; hide Goes; hide Elements; hide Carries;
      ghost var g, running, keys := G(), Elements(stack), Busy(held);
      Entering(cfg, world, depth, g, running, held, q);
      MarksStill(world, g, g, lastUsed, touches, keys);
      if q in part && Resting(root) { RestingSaved(cfg, world, g, checkpoint, pinned(root), part, running, q); }
      var s := checkpoint[q];
      if s.untracked || exists d :: d in s.deps && d.Query? && d !in pinned(root) { return false; }
      good := WarmTracked(root, q, held);
    }

    /** Looks at what a tracked record depends on, and stores it. */
    method WarmTracked(root: Key, q: Key, ghost held: map<Key, nat>) returns (good: bool)
      requires q in checkpoint && q !in records && !checkpoint[q].untracked && Inside(held, {})
      modifies this`revision, this`records, this`known, this`stack, this`lastUsed, this`touches, this`proof,
        this`stopped, this`evidence
      ensures stack == old(stack) && Inv(cfg, world, G()) && Advances(world, old(G()), G(), Busy(held)) && Stops(good)
      ensures MarksMove(world, old(G()), G(), old(lastUsed), old(touches), lastUsed, touches)
      ensures good ==> Carries(records, q, checkpoint[q].answer)
      ensures Goes(cfg, world, depth, old(G()), G(), q, Busy(held), Fine(stopped.None?, stopped, records),
                depth(q.id) + 1)
      ensures q in part && old(Resting(root)) ==>
        good && Resting(root) && Smooth(checkpoint, part, old(G()), G(), order, Bound(q))
      decreases Room(cfg.prog, stack), Slack(cfg.prog, held.Keys), 1, Bound(q), 0
    {
      hide MarksMove; hide MarksOk; hide Spared; hide AnswersIn; hide Room; hide Slack; hide Inv; hide Advances;
      hide InRequest; hide CheckpointOk; hide Halted; hide AtRest; hide Smooth; hide Carries; hide AllCarry; hide Goes;
      hide AllSeen; hide KindByKind;
      ghost var g, running, keys, resting := G(), Elements(stack), Busy(held), q in part && Resting(root);
      ghost var used, t := lastUsed, touches;
      var before := revision;
      Entering(cfg, world, depth, g, running, held, q);
      SavedAt(cfg.prog, checkpoint, order, q);
      ghost var seen;
      good, seen := VerifyDeps(root, q, held);
      ghost var g1 := G();
      GoesWider(cfg, world, depth, g, g1, q, keys, Fine(stopped.None?, stopped, records), depth(q.id), depth(q.id) + 1);
      if good {
        good := StoreVerified(root, q, before, g, keys, seen, resting);
        MarksTwice(world, g, g1, G(), used, t, lastUsed, touches, lastUsed, touches);
      }
    }

    /** Since `g`, in which the saved query `q` had no record, each of its dependencies was found good. */
    ghost predicate AllGood(q: Key, g: Graph, seen: map<Key, Graph>)
      reads this
    {
      && q in checkpoint && q !in g.recs && !checkpoint[q].untracked
      && (revision == g.rev ==> AllCarry(records, checkpoint[q].deps))
      && AllSeen(world, g, G(), checkpoint[q].deps, seen) && seen.Keys == checkpoint[q].deps.Keys
    }

    /** The last step of a restore: every dependency was good when it was looked at. */
    method StoreVerified(root: Key, q: Key, before: nat, ghost g: Graph, ghost keys: set<Key>,
        ghost seen: map<Key, Graph>, ghost resting: bool) returns (good: bool)
      requires Inv(cfg, world, G()) && Open() && Advances(world, g, G(), keys) && AllGood(q, g, seen)
      requires resting ==> q in part && Resting(root) && Smooth(checkpoint, part, g, G(), order, Number(q))
      requires Inv(cfg, world, g) && g.rev == before && (q in keys <==> q in stack)
      requires Goes(cfg, world, depth, g, G(), q, keys, true, depth(q.id))
      modifies this`records, this`proof, this`stopped, this`evidence
      ensures Inv(cfg, world, G()) && Advances(world, g, G(), keys) && Stops(good)
      ensures MarksMove(world, old(G()), G(), old(lastUsed), old(touches), lastUsed, touches)
      ensures good ==> Carries(records, q, checkpoint[q].answer)
      ensures Goes(cfg, world, depth, g, G(), q, keys, Fine(stopped.None?, stopped, records), depth(q.id) + 1)
      ensures resting ==> good && Resting(root) && Smooth(checkpoint, part, g, G(), order, Bound(q))
    {
      hide MarksMove; hide MarksOk;
      hide Replays; hide Inv; hide Advances; hide CheckpointOk; hide Intact; hide Smooth; hide Carries;
      hide AnswersIn; hide Halted; hide SavedSound; hide AllUpToDate; hide Settled; hide AllCarry; hide Step;
      hide AllUsable; hide AllStanding; hide Obstacle; hide AllSeen; hide Goes; hide Spared;
      ghost var g1 := G();
      StandsStill(world, g1, {});
      MarksStill(world, g1, g1, lastUsed, touches, {});
      SavedAt(cfg.prog, checkpoint, order, q);
      AboutToStore(cfg, world, depth, g, g1, keys, checkpoint, seen, stack, q);
      if resting { NoObstacle(cfg, world, g, g1, checkpoint, pinned(root), part, order, q); }
      stopped := Obstacle(cfg, records, requestId, revision, checkpoint, revision != before, q in stack, q);
      evidence := Evidence(g, seen, stack);
      good := stopped.None?;
      if good && q !in records { Reinstate(root, q, g, keys, resting); }
    }

    /** Nothing keeps the record of `q` from being stored. */
    method Reinstate(root: Key, q: Key, ghost g: Graph, ghost keys: set<Key>, ghost resting: bool)
      requires q in checkpoint && q !in records && Inv(cfg, world, G()) && Open() && Advances(world, g, G(), keys)
      requires resting ==> q in part && Resting(root) && Smooth(checkpoint, part, g, G(), order, Number(q))
      requires !checkpoint[q].untracked && q !in keys && AllCarry(records, checkpoint[q].deps)
      requires cfg.Evicts() ==>
        AllUsable(records, requestId, checkpoint[q].deps) || AllStanding(records, revision, checkpoint[q].deps)
      requires Goes(cfg, world, depth, g, G(), q, keys, true, depth(q.id))
      modifies this`records, this`proof
      ensures Inv(cfg, world, G()) && Advances(world, g, G(), keys) && Carries(records, q, checkpoint[q].answer)
      ensures Goes(cfg, world, depth, g, G(), q, keys, true, depth(q.id) + 1)
      ensures resting ==> Resting(root) && Smooth(checkpoint, part, g, G(), order, Bound(q))
      ensures MarksMove(world, old(G()), G(), lastUsed, touches, lastUsed, touches)
    {
      hide MarksMove; hide MarksOk;
      hide Inv; hide Advances; hide CheckpointOk; hide Intact; hide Smooth; hide Carries; hide AnswersIn;
      hide SavedSound; hide AllUpToDate; hide Settled; hide AllCarry; hide Step; hide AllUsable;
      hide AllStanding; hide Goes; hide Elements;
      ghost var g1 := G();
      SavedAt(cfg.prog, checkpoint, order, q);
      IntactChecked(cfg, world, g1, checkpoint, pinned(root), part, q);
      Install(q, AllUsable(records, requestId, checkpoint[q].deps));
      GrowsAdvances(world, g1, G(), q, {});
      MarksStill(world, g1, G(), lastUsed, touches, {});
      Installed(cfg, world, g, g1, G(), checkpoint, pinned(root), part, order, q, keys);
      GoesUp(cfg, world, depth, g, g1, G(), q, keys, true, depth(q.id));
    }

    /** Stores the saved record of `q`, whose dependencies carry what was written down for them. If this
        request has brought all of them up to date (`checked`), the record is too. */
    method Install(q: Key, checked: bool)
      requires Inv(cfg, world, G()) && Open() && q in checkpoint && q !in records && !checkpoint[q].untracked
      requires AllCarry(records, checkpoint[q].deps)
      requires if checked then AllUsable(records, requestId, checkpoint[q].deps)
               else cfg.Evicts() ==> AllStanding(records, revision, checkpoint[q].deps)
      modifies this`records, this`proof
      ensures Inv(cfg, world, G()) && Step(world, old(G()), G()) && forall k :: k != q ==> Same(old(G()), G(), k)
      ensures q in records && records == old(records)[q := records[q]] && Carries(records, q, checkpoint[q].answer)
      ensures records[q].changedAt == records[q].verifiedAt == revision && !Wavers(records[q])
      ensures records[q].checkedIn == (if checked then requestId else -1) && proof.runs == old(proof.runs)
      ensures forall d :: d in records[q].deps <==> d in checkpoint[q].deps
    {
      hide Inv; hide Settled; hide AllCarry; hide UpToDate; hide Restorable; hide CheckpointOk; hide Executed;
      hide Step; hide Storable; hide SavedSound; hide Promoted; hide AllStanding;
      ghost var g, s := G(), checkpoint[q];
      SavedAt(cfg.prog, checkpoint, order, q);
      StartStored(cfg, world, g, q);
      var deps := LabelOrdered(cfg.labelOf, checkpoint[q].deps.Keys);
      var rec := RestoredRecord(checkpoint[q].answer, revision, deps, if checked then requestId else -1);
      ghost var t := SavedTrace(cfg, g, q, s, deps);
      if checked {
        TraceExecuted(cfg, world, g, q, s, t, deps);
        ghost var g' := CommitStep(cfg, world, g, q, t, s.answer, rec, false);
        records, proof := records[q := rec], ProofOf(g');
      } else {
        TraceRestorable(cfg, world, g, q, s, t, deps);
        ghost var g' := RestoreStep(cfg, world, g, q, t, rec);
        records, proof := records[q := rec], ProofOf(g');
      }
    }

    // -------------------------------------------------------------------------------------------
    // The public operations

    function Inputs(): map<Key, Value>
      reads this
    {
      InputsOf(records)
    }

    /** Sets one input. An equal value changes nothing a reader can see. */
    method Set(k: Key, v: Value)
      requires Valid() && k.Input?
      modifies this`revision, this`records
      ensures Valid() && Inputs() == old(Inputs())[k := v]
      ensures revision == old(revision) + if k in old(Inputs()) && old(Inputs())[k] == v then 0 else 1
      ensures ChangesStamped(old(records), records, revision)
      ensures forall q :: q != k ==>
        (q in records <==> q in old(records)) && (q in records ==> records[q] == old(records[q]))
    {
      hide AnswersIn; hide CheckpointOk; hide CoreInv; hide InputsOf; hide StampsOk; hide Halts;
      ghost var g := G();
      CoreStamps(cfg, world, g);
      if k in records && records[k].answer == Val(v) {
        Restamp(k);
      } else {
        revision := revision + 1;
        records := records[k := InputRecord(v, revision)];
        ChangedInputStep(cfg, world, g, G(), k, v);
      }
      OneInput(g, records, k, v);
    }

    /** An input set to the value it has is stamped with the revision as it is. */
    method Restamp(k: Key)
      requires CoreInv(cfg, world, G()) && k.Input? && k in records
      modifies this`records
      ensures CoreInv(cfg, world, G())
      ensures records == old(records)[k := old(records)[k].(verifiedAt := revision, checkedIn := -1)]
    {
      hide AnswersIn; hide CoreInv; hide Halts;
      ghost var g := G();
      records := records[k := records[k].(verifiedAt := revision, checkedIn := -1)];
      EqualInputStep(cfg, world, g, G(), k);
    }

    /** Sets a batch of inputs. A duplicate, or a key that is not an input, refuses the whole batch;
        otherwise everything that changed lands together, at most one revision later. */
    method SetMany(updates: seq<(Key, Value)>) returns (ok: bool)
      requires Valid()
      modifies this`revision, this`records
      ensures Valid()
      ensures ok <==>
        && (forall i :: 0 <= i < |updates| ==> updates[i].0.Input?)
        && (forall i, j :: 0 <= i < j < |updates| ==> updates[i].0 != updates[j].0)
      ensures !ok ==> G() == old(G())
      ensures ok ==> Inputs() == WithUpdates(old(Inputs()), updates)
      ensures revision == old(revision) + if Inputs() == old(Inputs()) then 0 else 1
      ensures forall k :: k in old(records) ==> k in records
      ensures InputsOnly(old(records), records) && ChangesStamped(old(records), records, revision)
    {
      hide AnswersIn; hide CheckpointOk; hide CoreInv; hide WithUpdates; hide InputsOf; hide StampsOk;
      hide BatchOk; hide ChangesOf; hide Applied; hide ChangesStamped;
      StampedSince(records, records, records, revision);
      ghost var g := G();
      CoreStamps(cfg, world, g);
      ok := CheckBatch(updates);
      BatchMeans(updates);
      if !ok { return; }
      var equal: seq<bool> := [];
      for i := 0 to |updates|
        invariant Decided(records, updates[..i], equal)
      {
        assert updates[..i + 1] == updates[..i] + [updates[i]];
        equal := equal + [updates[i].0 in records && records[updates[i].0].answer == Val(updates[i].1)];
      }
      assert updates[..|updates|] == updates;
      RefreshEqual(updates, equal);
      StampedSince(g.recs, records, records, revision);
      UpdatesMeaning(g, G(), updates, equal);
      if forall i | 0 <= i < |equal| :: equal[i] {
        return;
      }
      ghost var g1 := G();
      ghost var applied := ApplyChanged(updates, equal);
      AppliedMeaning(g1, G(), updates, equal, applied);
      StampedSince(g.recs, g1.recs, records, revision);
    }

    /** The inputs whose value did not change are stamped with the revision as it is. */
    method RefreshEqual(updates: seq<(Key, Value)>, equal: seq<bool>)
      requires CoreInv(cfg, world, G())
      requires BatchOk(updates) && Decided(records, updates, equal)
      modifies this`records
      ensures CoreInv(cfg, world, G()) && SameAnswers(old(records), records)
      ensures Decided(records, updates, equal)
      ensures forall k :: k in records ==> StampsOk(G(), k)
    {
      hide AnswersIn; hide CheckpointOk; hide CoreInv; hide StampsOk; hide BatchOk;
      for i := 0 to |updates|
        invariant CoreInv(cfg, world, G()) && SameAnswers(old(records), records)
      {
        if equal[i] {
          BatchInput(updates, i);
          Restamp(updates[i].0);
        }
      }
      CoreStamps(cfg, world, G());
    }

    /** The inputs whose value changed are stored at the next revision. */
    method ApplyChanged(updates: seq<(Key, Value)>, equal: seq<bool>) returns (ghost applied: map<Key, Value>)
      requires CoreInv(cfg, world, G()) && BatchOk(updates) && |equal| == |updates|
      modifies this`revision, this`records
      ensures CoreInv(cfg, world, G()) && revision == old(revision) + 1
      ensures Applied(old(records), records, applied, revision) && ChangesOf(updates, equal, applied)
    {
      hide AnswersIn; hide CheckpointOk; hide CoreInv; hide BatchOk; hide ChangesOf; hide Applied;
      ghost var g := G();
      applied := map[];
      NothingApplied(records, revision + 1);
      revision := revision + 1;
      for i := 0 to |updates|
        invariant revision == g.rev + 1 && Applied(g.recs, records, applied, revision)
        invariant ChangesOf(updates[..i], equal[..i], applied)
        invariant forall k :: k in applied ==> k.Input?
      {
        BatchInput(updates, i);
        ChangesStep(updates, equal, i, applied);
        AppliedStep(g.recs, records, applied, revision, updates[i].0, updates[i].1);
        if !equal[i] {
          records := records[updates[i].0 := InputRecord(updates[i].1, revision)];
          applied := applied[updates[i].0 := updates[i].1];
        }
      }
      assert updates[..|updates|] == updates && equal[..|updates|] == equal;
      ChangesLand(cfg, world, g, G(), applied);
    }

    /** Drops least recently used query records until the limit holds, and no more. */
    method EvictQueryNodes()
      requires CoreInv(cfg, world, G()) && MarksOk(lastUsed, touches)
      modifies this`records, this`known, this`lastUsed
      ensures CoreInv(cfg, world, G()) && Trimmed(old(records), records, old(lastUsed), lastUsed, touches)
      ensures known == old(known) - (old(records).Keys - records.Keys)
      ensures if cfg.limit.Some? && |QueriesIn(old(records))| > cfg.limit.value
              then |QueriesIn(records)| == cfg.limit.value else records == old(records)
      ensures cfg.limit != Some(0) ==> LatestKept(old(records), records, old(lastUsed), touches)
    {
      hide AnswersIn; hide CoreInv; hide Trimmed; hide QueriesIn; hide MarksOk; hide LatestKept;
      NothingTrimmed(records, known, lastUsed, touches);
      LatestStays(cfg, records, records, lastUsed, lastUsed, touches);
      if cfg.limit.None? { return; }
      var queries := QueriesIn(records);
      while |queries| > cfg.limit.value
        invariant CoreInv(cfg, world, G()) && Trimmed(old(records), records, old(lastUsed), lastUsed, touches)
        invariant queries == QueriesIn(records) && known == old(known) - (old(records).Keys - records.Keys)
        invariant if |QueriesIn(old(records))| > cfg.limit.value
                  then |queries| >= cfg.limit.value else records == old(records)
      {
        var q := LeastUsed(queries);
        TrimOne(old(records), records, old(known), old(lastUsed), lastUsed, touches, q);
        Evict(q);
        queries := queries - {q};
      }
      LatestStays(cfg, old(records), records, old(lastUsed), lastUsed, touches);
    }

    /** Removes one query record. */
    method Evict(q: Key)
      requires CoreInv(cfg, world, G()) && q.Query? && cfg.limit.Some? && |QueriesIn(records)| > cfg.limit.value
      modifies this`records, this`known, this`lastUsed
      ensures CoreInv(cfg, world, G())
      ensures records == old(records) - {q} && known == old(known) - {q} && lastUsed == old(lastUsed) - {q}
    {
      hide AnswersIn; hide CoreInv; hide QueriesIn;
      ghost var g := G();
      EvictsOver(cfg, world, g);
      records, known, lastUsed := records - {q}, known - {q}, lastUsed - {q};
      EvictStep(cfg, world, g, G(), q);
    }

    method LeastUsed(queries: set<Key>) returns (q: Key)
      requires queries != {}
      ensures q in queries && forall k :: k in queries ==> Used(lastUsed, q) <= Used(lastUsed, k)
    {
      q :| q in queries;
      var rest := queries - {q};
      while rest != {}
        invariant rest <= queries && q in queries
        invariant forall k :: k in queries && k !in rest ==> Used(lastUsed, q) <= Used(lastUsed, k)
      {
        var k :| k in rest;
        if Used(lastUsed, k) < Used(lastUsed, q) { q := k; }
        rest := rest - {k};
      }
    }

    /** The checkpoint holds `q`; of all it was computed from only inputs have a record; and all that reads as
        saved. */
    ghost predicate Reusable(q: Key)
      reads this
    {
      q in part && NotMetYet(records, checkpoint, part) && Intact(cfg, world, G(), checkpoint, pinned(q), part)
    }

    /** Opens a request. */
    method OpenRequest()
      requires Valid()
      modifies this`requestId, this`start, this`began, this`proof, this`stopped, this`firstRev, this`calmDepth
      ensures Inv(cfg, world, G()) && Open() && G() == old(Begun(G()))
      ensures calmDepth == proof.rank
    {
      hide AnswersIn; hide Inv; hide CoreInv; hide Step; hide CheckpointOk; hide MarksOk; hide Unknown;
      BeginRequest(cfg, world, world, G(), Begun(G()));
      requestId, stopped := requestId + 1, None;
      start, began, firstRev, calmDepth, proof := records, proof.traces, revision, proof.rank,
        proof.(runs := multiset{}, blind := Unknown(records, known));
    }

    /** The request a query is asked in, up to its end. */
    method Request(q: Key) returns (r: Option<Value>)
      requires Valid() && q.Query?
      modifies this`revision, this`requestId, this`records, this`known, this`stack, this`lastUsed, this`touches,
        this`proof, this`start, this`began, this`stopped, this`evidence, this`firstRev, this`calmDepth
      ensures Inv(cfg, world, G()) && stack == [] && start == old(records) && began == old(proof.traces)
      ensures firstRev == old(revision)
      ensures BlindSince(G(), old(Unknown(records, known)))
      ensures r.Some? ==> Settled(world, G(), q) && Now(world, G(), q) == Val(r.value) && MarkedLast(q) && q in records
      ensures MarksOk(lastUsed, touches) && MarksSince(world, G(), old(lastUsed), old(touches), lastUsed, touches)
      ensures stopped.Some? ==> r.None? && StopOk(cfg, world, G(), checkpoint, stopped.value, evidence)
      ensures CallsDown(cfg.prog, depth, world, old(records).Keys) && q.id in cfg.prog ==>
        Fine(r.Some?, stopped, records)
      ensures q in calm && Calm(world, G(), calm, old(proof.rank)) ==> r.Some?
      ensures r.Some? || stopped.Some? || Faulted(cfg, world, OpeningOf(G()), {}, q)
      ensures OnlyNeeded(cfg, world, G(), q)
      ensures r.None? && stopped.None? && q !in old(records) ==> q !in records && q !in known
      ensures old(Reusable(q)) ==>
        r.Some? && Val(r.value) == checkpoint[q].answer && proof.runs == multiset{} && revision == old(revision)
    {
      hide Faulted; hide OnlyNeeded; hide Narrow;
      hide AnswersIn; hide Inv; hide CoreInv; hide Advances; hide InRequest; hide CallsDown; hide Settled;
      hide Calm; hide Intact; hide StopOk; hide CheckpointOk; hide Unknown; hide AllUpToDate; hide Now;
      hide Confined; hide Beside; hide MarksMove; hide MarksOk; hide MarksSince; hide NotMetYet;
      ghost var before := G();
      OpenRequest();
      ghost var g, held: map<Key, nat> := G(), map[];
      NothingHeld(cfg, world, g, {});
      if NotMetYet(records, checkpoint, part) { InputsUpToDate(cfg, world, before, g, checkpoint, pinned(q), part); }
      var ok := Fetch(q, held);
      SinceBegun(world, g, G(), Busy(held));
      MarkedSince(world, g, G(), old(lastUsed), old(touches), lastUsed, touches);
      assert AtStart() == OpeningOf(G()) && Elements(stack) == {};
      NarrowSinceBegun(cfg, world, g, G(), q);
      r := None;
      if ok {
        AnswerNow(cfg, world, G(), q);
        r := Some(records[q].answer.v);
      }
    }

    /** Asks for a query in a request of its own. `done` is the state the request ended in, before
        eviction, and `used` the use marks it left.

        Whatever is returned is what a fresh database answers, and nothing was touched but what `q` needs. Where it
        raises there is a cause; none if a fresh database, in which unset inputs and unobservable resources raise,
        answers, and nothing had moved or stored edges go no deeper than evaluation. Each body ran at most once, and
        one whose query had a record ran only if it was untracked or a recorded dependency had moved. If the program's
        calls go down `depth`, the call returns, unless a restore stopped because records can be evicted or because a
        dependency moved while it was restored: so it returns where nothing is evicted and the revision stands, and
        where nothing had moved when the request began. In a quiet part of the records it returns always. What has no
        record yet is answered from an intact part of the checkpoint, running nothing. */
    method Get(q: Key) returns (r: Option<Value>, ghost done: Graph, ghost used: map<Key, nat>)
      requires Valid() && q.Query?
      modifies this`revision, this`requestId, this`records, this`known, this`stack, this`lastUsed, this`touches,
        this`proof, this`start, this`began, this`stopped, this`evidence, this`firstRev, this`calmDepth
      ensures Valid() && Inputs() == old(Inputs())
      ensures r.Some? ==>
        && Fresh(cfg.prog, WorldLeaves(cfg, world, Inputs()), q, Val(r.value))
        && ReadsWithin(cfg.prog, WorldLeaves(cfg, world, Inputs()), q, records.Keys)
      ensures r.Some? || stopped.Some? || Faulted(cfg, world, OpeningOf(done), {}, q)
      ensures OnlyNeeded(cfg, world, done, q)
      ensures InDepth(cfg, world, OpeningOf(done)) && Evaluable(cfg, world, OpeningOf(done), q) ==>
        r.Some? || stopped.Some?
      ensures checkpoint == map[] ==> stopped.None?
      ensures old(OnlyInputs(records)) && checkpoint == map[] ==> forall v ::
        Fresh(cfg.prog, Readable(cfg, world, OpeningOf(done)), q, Val(v)) ==> r == Some(v)
      ensures CallsDown(cfg.prog, depth, world, old(records).Keys) && q.id in cfg.prog ==>
        Fine(r.Some?, stopped, done.recs)
      ensures CallsDown(cfg.prog, depth, world, old(records).Keys) && q.id in cfg.prog ==>
        !cfg.Evicts() && revision == old(revision) ==> r.Some?
      ensures CallsDown(cfg.prog, depth, world, old(records).Keys) && q.id in cfg.prog ==>
        Steady(cfg, world, Inputs(), old(revision), old(records)) ==> r.Some?
      ensures Steady(cfg, world, Inputs(), old(revision), old(records)) ==>
        revision == old(revision) && Steady(cfg, world, Inputs(), revision, records)
      ensures q in calm && Calm(world, done, calm, old(proof.rank)) ==> r.Some?
      ensures stopped.Some? ==> r.None? && StopOk(cfg, world, done, checkpoint, stopped.value, evidence)
      ensures old(Reusable(q)) ==>
        r.Some? && Val(r.value) == checkpoint[q].answer && done.runs == multiset{} && revision == old(revision)
      ensures Inv(cfg, world, done) && InputsOf(done.recs) == Inputs() && done.start == old(records)
      ensures done.began == old(proof.traces) && done.first == old(revision)
      ensures BlindSince(done, old(Unknown(records, known))) && Unknown(records, known) <= done.blind
      ensures r.Some? ==>
        Settled(world, done, q) && Now(world, done, q) == Val(r.value) && q in used && used[q] == touches
      ensures r.None? && stopped.None? && q !in old(records) ==> q !in records
      ensures RanForReasons(done)
      ensures forall k :: k in old(records) && !k.Query? ==> k in records
      ensures MarksSince(world, done, old(lastUsed), old(touches), used, touches)
      ensures G() == done.(recs := records, known := known) && Trimmed(done.recs, records, used, lastUsed, touches)
      ensures known == done.known - (done.recs.Keys - records.Keys)
      ensures if cfg.limit.Some? && |QueriesIn(done.recs)| > cfg.limit.value
              then |QueriesIn(records)| == cfg.limit.value else records == done.recs
      ensures r.Some? && cfg.limit != Some(0) ==> q in records
      ensures !cfg.Evicts() ==> records == done.recs && known == done.known
    {
      hide Reusable; hide AnswersIn; hide Inv; hide CoreInv; hide CallsDown; hide Settled; hide Now;
      hide InputsOf; hide Trimmed; hide Calm; hide Intact; hide QueriesIn; hide RanForReasons;
      hide WorldLeaves; hide Fresh; hide Unknown; hide Halted; hide CheckpointOk; hide BlindSince; hide Steady;
      hide Spared; hide ReadsWithin; hide MarksOk; hide MarksSince; hide Faulted; hide InDepth; hide Evaluable;
      hide Readable; hide OnlyInputs; hide StopOk; hide OnlyNeeded;
      r := Request(q);
      done, used := G(), lastUsed;
      RequestEnds(cfg, world, done, q, checkpoint, stopped, evidence);
      Unfaulted(cfg, world, done, q, r, stopped, checkpoint, evidence);
      EvictQueryNodes();
      EvictionKeeps(cfg, world, done, q, records, known, used, lastUsed, touches);
    }

    /** A loaded checkpoint is there to restore from. */
    method TakeCheckpoint(c: Checkpoint, ghost numbers: map<Key, nat>)
      requires Valid() && CheckpointOk(cfg.prog, c, numbers)
      modifies this`checkpoint, this`order
      ensures Valid() && checkpoint == c && order == numbers && Inputs() == old(Inputs())
    {
      hide CoreInv; hide CheckpointOk;
      SavedAside(cfg, world, G(), AnswersIn(c));
      checkpoint, order := c, numbers;
    }

    /** The outside world changes. */
    method WorldMoves(w: World)
      requires Valid()
      modifies this`world
      ensures Valid() && world == w
    {
      world := w;
    }
  }

  function QueriesIn(recs: map<Key, Record>): set<Key> {
    set k | k in recs && k.Query?
  }

  /** When a query was last used; never counts as before everything. */
  function Used(lastUsed: map<Key, nat>, q: Key): int {
    if q in lastUsed then lastUsed[q] else -1
  }

  /** The marks in `used` are different and not above `touches`. */
  ghost predicate MarksOk(used: map<Key, nat>, touches: nat) {
    && (forall k :: k in used ==> used[k] <= touches)
    && (forall k, m :: k in used && m in used && used[k] == used[m] ==> k == m)
  }

  /** From `g` to `g'`, the mark of whatever was there or settled stays or moves above `touches`; and what is marked
      above `touches` has been settled. */
  ghost predicate MarksMove(w: World, g: Graph, g': Graph, used: map<Key, nat>, touches: nat, used': map<Key, nat>,
      touches': nat)
  {
    && g'.start == g.start && touches <= touches' && (forall k :: Settled(w, g, k) ==> Settled(w, g', k))
    && (forall k :: k in used && (k in g.start || Settled(w, g, k)) ==>
          k in used' && (used'[k] == used[k] || used'[k] > touches))
    && (forall k :: k in used' ==>
          if used'[k] <= touches then k in used && used'[k] == used[k] else k.Query? && Settled(w, g', k))
  }

  /** Over a request, the same of whatever it found. */
  ghost predicate MarksSince(w: World, g: Graph, used: map<Key, nat>, touches: nat, used': map<Key, nat>, touches': nat)
  {
    && touches <= touches'
    && (forall k :: k in used && k in g.start ==> k in used' && (used'[k] == used[k] || used'[k] > touches))
    && (forall k :: k in used' ==>
          if used'[k] <= touches then k in used && used'[k] == used[k] else k.Query? && Settled(w, g, k))
  }

  lemma MarkedSince(w: World, g: Graph, g': Graph, used: map<Key, nat>, touches: nat, used': map<Key, nat>,
      touches': nat)
    requires MarksMove(w, g, g', used, touches, used', touches')
    ensures MarksSince(w, g', used, touches, used', touches')
  {
    hide Settled;
  }

  lemma MarksStill(w: World, g: Graph, g': Graph, used: map<Key, nat>, touches: nat, keys: set<Key>)
    requires MarksOk(used, touches) && Advances(w, g, g', keys)
    ensures MarksMove(w, g, g', used, touches, used, touches)
  {
    forall k | Settled(w, g, k) ensures Settled(w, g', k) { assert Same(g, g', k); }
  }

  lemma MarksTwice(w: World, g: Graph, g': Graph, g'': Graph, used: map<Key, nat>, touches: nat, used': map<Key, nat>,
      touches': nat, used'': map<Key, nat>, touches'': nat)
    requires MarksMove(w, g, g', used, touches, used', touches')
    requires MarksMove(w, g', g'', used', touches', used'', touches'')
    ensures MarksMove(w, g, g'', used, touches, used'', touches'')
  {
    hide Settled;
  }

  lemma MarksThen(w: World, g: Graph, g': Graph, g'': Graph, used: map<Key, nat>, touches: nat, used': map<Key, nat>,
      touches': nat, keys: set<Key>)
    requires MarksMove(w, g, g', used, touches, used', touches') && MarksOk(used', touches')
    requires Advances(w, g', g'', keys)
    ensures MarksMove(w, g, g'', used, touches, used', touches')
  {
    hide MarksMove; hide MarksOk; hide Advances;
    MarksStill(w, g', g'', used', touches', keys);
    MarksTwice(w, g, g', g'', used, touches, used', touches', used', touches');
  }

  lemma ReadStops(cfg: Config, w: World, g0: Graph, g: Graph, c: Checkpoint, keys: set<Key>, q: Key, e: Evidence)
    requires Advances(w, g0, g, keys) && q !in g0.recs && q in g.recs && !Settled(w, g, q) && !Unread(g.recs, q)
    requires g.saved == AnswersIn(c)
    ensures Halted(cfg, w, g, c, Discarded(q), e, e.stack)
  {
    UnsettledIsSaved(w, g0, g, keys, q);
  }

  /** What is known where the dependencies of `q` begin to be checked. */
  lemma CheckBegins(cfg: Config, w: World, depth: nat -> nat, calm: set<Key>, calmDepth: nat -> nat, g: Graph,
      running: set<Key>, held: map<Key, nat>, q: Key, used: map<Key, nat>, touches: nat)
    requires InRequest(cfg, w, g, running, held, {q}) && q.Query? && q in g.recs && !Settled(w, g, q)
    requires MarksOk(used, touches)
    ensures Inv(cfg, w, g) && MarksMove(w, g, g, used, touches, used, touches)
    ensures CheckedWell(cfg, w, depth, calm, calmDepth, g, g, q, held.Keys + running, 0, true, false, true)
    ensures q in held ==> held[q] < |g.recs[q].deps| && held.Keys + {q} == held.Keys
    ensures q !in held ==> Slack(cfg.prog, held.Keys + {q}) < Slack(cfg.prog, held.Keys)
    ensures Slack(cfg.prog, held.Keys + {q}) <= Slack(cfg.prog, held.Keys)
  {
    hide Inv; hide MarksMove; hide MarksOk; hide CheckedWell; hide Slack; hide HeldOk; hide Settled; hide Advances;
    StandsStill(w, g, held.Keys + running);
    MarksStill(w, g, g, used, touches, held.Keys + running);
    NothingChecked(cfg, w, depth, calm, calmDepth, g, q, held.Keys + running);
    InProgram(cfg, w, g, q);
    SlackFalls(cfg.prog, held.Keys, q);
    if q in held { HeldPosition(cfg, w, g, running, held, q); }
  }

  /** A query that is settled is marked last. */
  lemma MarksOne(w: World, g: Graph, g': Graph, used: map<Key, nat>, touches: nat, used': map<Key, nat>, touches': nat,
      q: Key)
    requires MarksMove(w, g, g', used, touches, used', touches') && MarksOk(used', touches')
    requires q.Query? && Settled(w, g', q)
    ensures var n := touches' + 1;
            MarksMove(w, g, g', used, touches, used'[q := n], n) && MarksOk(used'[q := n], n)
  {
    hide Settled;
  }

  lemma MarksDropped(w: World, g: Graph, used: map<Key, nat>, touches: nat, q: Key)
    requires MarksOk(used, touches) && q.Query? && !Settled(w, g, q) && q !in g.start
    ensures MarksMove(w, g, Dropped(g, q), used, touches, used - {q}, touches) && MarksOk(used - {q}, touches)
  {}

  /** Only query records went, and none was used more recently than one that stayed; those never used went first. */
  ghost predicate Trimmed(recs: map<Key, Record>, recs': map<Key, Record>, used: map<Key, nat>, used': map<Key, nat>,
      touches: nat)
  {
    && MarksOk(used', touches) && (forall k :: k in recs' ==> k in recs && recs'[k] == recs[k])
    && (forall k :: k in recs && k !in recs' ==> k.Query?)
    && (forall k :: k in recs' ==> (k in used' <==> k in used) && (k in used ==> used'[k] == used[k]))
    && (forall gone, kept {:trigger gone in recs, kept in recs'} ::
          gone in recs && gone !in recs' && kept in recs' && kept.Query? && gone in used ==>
          kept in used && used[gone] <= used[kept])
  }

  lemma NothingTrimmed(recs: map<Key, Record>, known: set<Key>, used: map<Key, nat>, touches: nat)
    requires MarksOk(used, touches)
    ensures Trimmed(recs, recs, used, used, touches) && known - (recs.Keys - recs.Keys) == known
  {}

  lemma TrimOne(recs: map<Key, Record>, recs': map<Key, Record>, known: set<Key>, used: map<Key, nat>,
      used': map<Key, nat>, touches: nat, q: Key)
    requires Trimmed(recs, recs', used, used', touches) && q in QueriesIn(recs')
    requires forall k :: k in QueriesIn(recs') ==> Used(used', q) <= Used(used', k)
    ensures Trimmed(recs, recs' - {q}, used, used' - {q}, touches)
    ensures QueriesIn(recs' - {q}) == QueriesIn(recs') - {q} && q.Query?
    ensures known - (recs.Keys - recs'.Keys) - {q} == known - (recs.Keys - (recs' - {q}).Keys)
  {
    forall gone, kept | gone in recs && gone !in recs' - {q} && kept in recs' - {q} && kept.Query? && gone in used
      ensures kept in used && used[gone] <= used[kept]
    {
      assert kept in QueriesIn(recs');
    }
  }

  /** The query marked last stays, if any may. */
  lemma LastStays(recs: map<Key, Record>, recs': map<Key, Record>, used: map<Key, nat>, used': map<Key, nat>,
      touches: nat, q: Key)
    requires Trimmed(recs, recs', used, used', touches) && MarksOk(used, touches)
    requires q in recs && q in used && used[q] == touches && (recs' == recs || |QueriesIn(recs')| > 0)
    ensures q in recs'
  {
    if recs' != recs {
      var kept :| kept in QueriesIn(recs');
      assert q in recs && kept in recs';
    }
  }

  /** Nothing had moved when the request began, so nothing stopped it. */
  lemma SparedWhen(cfg: Config, w: World, g: Graph, c: Checkpoint, stop: Option<Stop>, e: Evidence)
    requires Inv(cfg, w, g) && (stop.Some? ==> StopOk(cfg, w, g, c, stop.value, e))
    ensures Spared(stop, g.recs) && !cfg.Evicts() ==> g.rev > g.first
    ensures Spared(stop, g.recs) ==> !SteadyStart(cfg, w, g)
    ensures SteadyStart(cfg, w, g) ==> g.rev == g.first && Steady(cfg, w, InputsOf(g.start), g.rev, g.recs)
  {
    assert SteadyOk(cfg, w, g);
    if Spared(stop, g.recs) {
      var q := stop.value.key;
      if stop.value.Overtaken? {
        RestoringSince(cfg, w, g, c, q, e);
      } else if SteadyStart(cfg, w, g) {
        SteadyStanding(cfg, w, g, c[q].deps);
      }
    }
  }

  /** What the end of a request means, read off the invariant. */
  lemma RequestEnds(cfg: Config, w: World, g: Graph, q: Key, c: Checkpoint, stop: Option<Stop>, e: Evidence)
    requires Inv(cfg, w, g) && q.Query? && (stop.Some? ==> StopOk(cfg, w, g, c, stop.value, e))
    ensures CoreInv(cfg, w, g) && InputsOf(g.recs) == InputsOf(g.start) && RanForReasons(g)
    ensures Unknown(g.recs, g.known) <= g.blind && g.start.Keys <= g.recs.Keys
    ensures Settled(w, g, q) ==>
      && Fresh(cfg.prog, WorldLeaves(cfg, w, InputsOf(g.recs)), q, Now(w, g, q))
      && ReadsWithin(cfg.prog, WorldLeaves(cfg, w, InputsOf(g.recs)), q, g.recs.Keys)
    ensures Spared(stop, g.recs) && !cfg.Evicts() ==> g.rev > g.first
    ensures Spared(stop, g.recs) ==> !Steady(cfg, w, InputsOf(g.start), g.first, g.start)
    ensures Steady(cfg, w, InputsOf(g.start), g.first, g.start) ==>
      g.rev == g.first && Steady(cfg, w, InputsOf(g.start), g.rev, g.recs)
    ensures cfg.limit.Some? && |QueriesIn(g.recs)| > cfg.limit.value ==> cfg.Evicts()
  {
    hide Inv; hide Settled; hide Now; hide Steady; hide StopOk; hide Spared; hide RanForReasons; hide Fresh;
    hide ReadsWithin; hide WorldLeaves; hide QueriesIn; hide Unknown; hide InputsOf; hide CoreInv;
    CoreOf(cfg, w, g);
    InputsKept(cfg, w, g);
    ByReason(cfg, w, g);
    UnknownAreBlind(cfg, w, g);
    if Settled(w, g, q) {
      SettledFreshInWorld(cfg, w, g, q);
      SettledReadsWithin(cfg, w, g, q);
    }
    SparedWhen(cfg, w, g, c, stop, e);
    EvictsOver(cfg, w, g);
    forall k | k in g.start ensures k in g.recs { StartStored(cfg, w, g, k); }
  }

  /** No cause where a fresh database answers; and nothing stops without a checkpoint. */
  lemma Unfaulted(cfg: Config, w: World, g: Graph, q: Key, r: Option<Value>, stop: Option<Stop>, c: Checkpoint,
      e: Evidence)
    requires Inv(cfg, w, g) && q.Query? && (r.Some? || stop.Some? || Faulted(cfg, w, OpeningOf(g), {}, q))
    requires stop.Some? ==> StopOk(cfg, w, g, c, stop.value, e)
    requires r.Some? ==> Fresh(cfg.prog, WorldLeaves(cfg, w, InputsOf(g.start)), q, Val(r.value))
    ensures InDepth(cfg, w, OpeningOf(g)) && Evaluable(cfg, w, OpeningOf(g), q) ==> r.Some? || stop.Some?
    ensures c == map[] ==> stop.None?
    ensures OnlyInputs(g.start) && c == map[] ==> forall v ::
      Fresh(cfg.prog, Readable(cfg, w, OpeningOf(g)), q, Val(v)) ==> r == Some(v)
  {
    hide Inv; hide StopOk; hide WorldLeaves; hide Faulted; hide InDepth;
    var o := OpeningOf(g);
    if InDepth(cfg, w, o) && Evaluable(cfg, w, o, q) { NotFaulted(cfg, w, o, q); }
    NoStop(cfg, w, g, stop, c, e);
    if OnlyInputs(g.start) && c == map[] {
      InputsInDepth(cfg, w, o);
      forall v | Fresh(cfg.prog, Readable(cfg, w, o), q, Val(v)) ensures r == Some(v) {
        assert Evaluable(cfg, w, o, q);
        ReadableExtends(cfg, w, o);
        FreshUnique(cfg.prog, Readable(cfg, w, o), LeavesOf(cfg, w, o), q, Val(v), Val(r.value));
      }
    }
  }

  lemma InputsInDepth(cfg: Config, w: World, o: Opening)
    requires OnlyInputs(o.start)
    ensures InDepth(cfg, w, o)
  {}

  /** Without a checkpoint no request stops. */
  lemma NoStop(cfg: Config, w: World, g: Graph, stop: Option<Stop>, c: Checkpoint, e: Evidence)
    requires stop.Some? ==> StopOk(cfg, w, g, c, stop.value, e)
    ensures c == map[] ==> stop.None?
  {}

  /** What was used last is still there. */
  ghost predicate LatestKept(recs: map<Key, Record>, recs': map<Key, Record>, used: map<Key, nat>, touches: nat) {
    forall k :: k in recs && k in used && used[k] == touches ==> k in recs'
  }

  lemma LatestStays(cfg: Config, recs: map<Key, Record>, recs': map<Key, Record>, used: map<Key, nat>,
      used': map<Key, nat>, touches: nat)
    requires Trimmed(recs, recs', used, used', touches) && MarksOk(used, touches)
    requires recs' == recs || (cfg.limit.Some? && |QueriesIn(recs')| == cfg.limit.value)
    ensures cfg.limit != Some(0) ==> LatestKept(recs, recs', used, touches)
  {
    hide Trimmed; hide MarksOk; hide QueriesIn;
    forall k | cfg.limit != Some(0) && k in recs && k in used && used[k] == touches ensures k in recs' {
      LastStays(recs, recs', used, used', touches, k);
    }
  }

  /** What eviction leaves standing. */
  lemma EvictionKeeps(cfg: Config, w: World, g: Graph, q: Key, recs: map<Key, Record>, known: set<Key>,
      used: map<Key, nat>, used': map<Key, nat>, touches: nat)
    requires known == g.known - (g.recs.Keys - recs.Keys)
    requires Trimmed(g.recs, recs, used, used', touches)
    ensures InputsOf(recs) == InputsOf(g.recs) && recs.Keys <= g.recs.Keys
    ensures forall k :: k in g.recs && !k.Query? ==> k in recs
    ensures Unknown(recs, known) <= Unknown(g.recs, g.known) && (recs == g.recs ==> known == g.known)
    ensures MarksOk(used', touches)
    ensures Steady(cfg, w, InputsOf(g.start), g.rev, g.recs) ==> Steady(cfg, w, InputsOf(g.start), g.rev, recs)
    ensures var l := WorldLeaves(cfg, w, InputsOf(g.recs));
            ReadsWithin(cfg.prog, l, q, g.recs.Keys) ==> ReadsWithin(cfg.prog, l, q, recs.Keys)
  {
    hide Trimmed; hide Steady; hide ReadsWithin; hide WorldLeaves; hide InputsOf;
    InputsSurvive(g.recs, recs, used, used', touches);
    MarksSurvive(g.recs, recs, used, used', touches);
    SteadySurvives(cfg, w, g, recs, used, used', touches);
    ReadsSurvive(cfg.prog, WorldLeaves(cfg, w, InputsOf(g.recs)), q, g.recs, recs);
  }

  lemma RestoringSince(cfg: Config, w: World, g: Graph, c: Checkpoint, q: Key, e: Evidence)
    requires q in c && Restoring(cfg, w, g, c, q, e)
    ensures g.first <= e.began.rev
  {}

  lemma SteadyStanding(cfg: Config, w: World, g: Graph, deps: map<Key, Answer>)
    requires Inv(cfg, w, g) && SteadyStart(cfg, w, g)
    ensures AllStanding(g.recs, g.rev, deps)
  {
    forall k | k in g.recs ensures (k.Query? ==> g.recs[k].verifiedAt == g.rev) && !g.recs[k].unconfirmed {
      SteadyNow(cfg, w, g, k);
      InvAt(cfg, w, g, k);
    }
  }

  lemma SteadySurvives(cfg: Config, w: World, g: Graph, recs: map<Key, Record>, used: map<Key, nat>,
      used': map<Key, nat>, touches: nat)
    requires Trimmed(g.recs, recs, used, used', touches)
    ensures Steady(cfg, w, InputsOf(g.start), g.rev, g.recs) ==> Steady(cfg, w, InputsOf(g.start), g.rev, recs)
  {
    hide SteadyAt;
  }

  ghost predicate OnlyInputs(recs: map<Key, Record>) {
    forall k :: k in recs ==> k.Input?
  }

  /** Of `part` and what it was computed from, only inputs have a record. */
  ghost predicate NotMetYet(recs: map<Key, Record>, c: Checkpoint, part: set<Key>) {
    forall k :: k in recs && Concerns(c, part, k) ==> k.Input?
  }

  lemma InputsUpToDate(cfg: Config, w: World, g: Graph, g': Graph, c: Checkpoint, pinned: set<Key>, part: set<Key>)
    requires NotMetYet(g.recs, c, part) && g'.recs == g.recs
    ensures AllUpToDate(g', c, part) && forall k :: k in part && k in g.recs ==> k.Input?
    ensures Intact(cfg, w, g, c, pinned, part) ==> Intact(cfg, w, g', c, pinned, part)
  {
    forall k, d | Intact(cfg, w, g, c, pinned, part) && k in part && k in c && d in c[k].deps
      ensures Unmoved(cfg, w, g', c, pinned, part, d, c[k].deps[d])
    {
      IntactAt(cfg, w, g, c, pinned, part, k, d);
      assert Concerns(c, part, d);
    }
  }

  /** What a request came to count as blind, beyond what it found so, it restored. */
  ghost predicate BlindSince(g: Graph, unknown: set<Key>) {
    unknown <= g.blind && forall k :: k in g.blind ==> k in unknown || (k in g.saved && k !in g.start)
  }

  lemma SinceBegun(w: World, g: Graph, g': Graph, keys: set<Key>)
    requires Advances(w, g, g', keys)
    ensures BlindSince(g', g.blind) && g'.req == g.req && g'.start == g.start && g'.began == g.began
  {}

  lemma SavedAside(cfg: Config, w: World, g: Graph, saved: map<Key, Answer>)
    requires CoreInv(cfg, w, g)
    ensures CoreInv(cfg, w, g.(saved := saved))
  {
    var g' := g.(saved := saved);
    forall k | k in g.recs ensures StampsOk(g', k) { assert StampsOk(g, k); }
    forall q | q in g.recs && q.Query? ensures TraceOk(cfg, g', q) && KnownOk(g', q) {
      assert TraceOk(cfg, g, q) && KnownOk(g, q);
    }
    forall q, i | q in g.recs && q.Query? && 0 <= i < |g.traces[q].keys|
      ensures EdgeOk(cfg, g', q, g.traces[q].keys[i], g.traces[q].answers[i])
      ensures CurrentOk(cfg, g', q, g.traces[q].keys[i], g.traces[q].answers[i])
    {
      assert EdgeOk(cfg, g, q, g.traces[q].keys[i], g.traces[q].answers[i]);
      assert CurrentOk(cfg, g, q, g.traces[q].keys[i], g.traces[q].answers[i]);
    }
  }

  /** There are no more query records than queries in the program. */
  lemma {:induction false} FewQueries(ids: set<nat>, queries: set<Key>)
    requires forall k :: k in queries ==> k.Query? && k.id in ids
    ensures |queries| <= |ids|
  {
    if queries != {} {
      var k :| k in queries;
      FewQueries(ids - {k.id}, queries - {k});
    }
  }

  lemma EvictsOver(cfg: Config, w: World, g: Graph)
    requires CoreInv(cfg, w, g)
    ensures cfg.limit.Some? && |QueriesIn(g.recs)| > cfg.limit.value ==> cfg.Evicts()
  {
    forall k | k in QueriesIn(g.recs) ensures k.Query? && k.id in cfg.prog.Keys { assert TraceOk(cfg, g, k); }
    FewQueries(cfg.prog.Keys, QueriesIn(g.recs));
    assert |cfg.prog.Keys| == |cfg.prog|;
  }

  lemma AnswerNow(cfg: Config, w: World, g: Graph, q: Key)
    requires Inv(cfg, w, g) && Settled(w, g, q) && q.Query?
    ensures q in g.recs && g.recs[q].answer.Val? && Now(w, g, q) == g.recs[q].answer
  {
    AtRecord(cfg, w, g, q);
  }

  lemma NothingHeld(cfg: Config, w: World, g: Graph, cur: set<Key>)
    requires Inv(cfg, w, g)
    ensures InRequest(cfg, w, g, Elements([]), map[], cur)
  {}

  lemma CoreOf(cfg: Config, w: World, g: Graph)
    requires Inv(cfg, w, g)
    ensures CoreInv(cfg, w, g)
  {}

  lemma UnknownAreBlind(cfg: Config, w: World, g: Graph)
    requires Inv(cfg, w, g)
    ensures Unknown(g.recs, g.known) <= g.blind
  {
    forall k | k in Unknown(g.recs, g.known) ensures k in g.blind { assert KnownOk(g, k); }
  }

  lemma MarksSurvive(recs: map<Key, Record>, recs': map<Key, Record>, used: map<Key, nat>, used': map<Key, nat>,
      touches: nat)
    requires Trimmed(recs, recs', used, used', touches)
    ensures MarksOk(used', touches)
  {}

  lemma InputsSurvive(recs: map<Key, Record>, recs': map<Key, Record>, used: map<Key, nat>, used': map<Key, nat>,
      touches: nat)
    requires Trimmed(recs, recs', used, used', touches)
    ensures InputsOf(recs') == InputsOf(recs) && recs'.Keys <= recs.Keys
    ensures forall k :: k in recs && !k.Query? ==> k in recs'
  {}

  lemma ReadsSurvive(prog: Prog, l: Leaves, q: Key, recs: map<Key, Record>, recs': map<Key, Record>)
    requires forall k :: k in recs && !k.Query? ==> k in recs'
    ensures ReadsWithin(prog, l, q, recs.Keys) ==> ReadsWithin(prog, l, q, recs'.Keys)
  {}

  /** Each body ran at most once, and one whose query had a tracked record only after a dependency it recorded had
      moved. */
  ghost predicate RanForReasons(g: Graph) {
    && (forall k :: g.runs[k] <= 1)
    && (forall k :: g.runs[k] == 1 && k in g.start && !g.start[k].untracked ==>
          exists d :: d in g.start[k].deps && Moved(g, d, g.start[k].verifiedAt))
  }

  /** Early cutoff, read off the invariant: a body that ran, ran once and for a reason. */
  lemma ByReason(cfg: Config, w: World, g: Graph)
    requires Inv(cfg, w, g)
    ensures RanForReasons(g)
  {
    forall k
      ensures g.runs[k] <= 1
      ensures g.runs[k] == 1 && k in g.start && !g.start[k].untracked ==>
        exists d :: d in g.start[k].deps && Moved(g, d, g.start[k].verifiedAt)
    {
      assert RunOk(w, g, k);
    }
  }

  predicate BatchOk(updates: seq<(Key, Value)>) {
    && (forall i :: 0 <= i < |updates| ==> updates[i].0.Input?)
    && (forall i, j :: 0 <= i < j < |updates| ==> updates[i].0 != updates[j].0)
  }

  lemma BatchMeans(updates: seq<(Key, Value)>)
    ensures BatchOk(updates) <==>
      && (forall i :: 0 <= i < |updates| ==> updates[i].0.Input?)
      && (forall i, j :: 0 <= i < j < |updates| ==> updates[i].0 != updates[j].0)
  {}

  method CheckBatch(updates: seq<(Key, Value)>) returns (ok: bool)
    ensures ok <==> BatchOk(updates)
  {
    var seen: set<Key> := {};
    for i := 0 to |updates|
      invariant BatchOk(updates[..i])
      invariant seen == set j | 0 <= j < i :: updates[j].0
    {
      var k := updates[i].0;
      if !k.Input? { return false; }
      if k in seen {
        var j :| 0 <= j < i && updates[j].0 == k;
        return false;
      }
      seen := seen + {k};
    }
    assert updates[..|updates|] == updates;
    return true;
  }

  /** The inputs after a batch of updates, applied in order. */
  function WithUpdates(inputs: map<Key, Value>, updates: seq<(Key, Value)>): map<Key, Value> {
    if updates == [] then inputs
    else
      var n := |updates| - 1;
      WithUpdates(inputs, updates[..n])[updates[n].0 := updates[n].1]
  }

  lemma {:induction false} WithUpdatesAt(inputs: map<Key, Value>, updates: seq<(Key, Value)>, k: Key)
    requires BatchOk(updates)
    ensures k in WithUpdates(inputs, updates) <==> k in inputs || exists j :: 0 <= j < |updates| && updates[j].0 == k
    ensures forall j :: 0 <= j < |updates| && updates[j].0 == k ==> WithUpdates(inputs, updates)[k] == updates[j].1
    ensures k in inputs && (forall j :: 0 <= j < |updates| ==> updates[j].0 != k) ==>
      WithUpdates(inputs, updates)[k] == inputs[k]
  {
    if updates != [] {
      var n := |updates| - 1;
      WithUpdatesAt(inputs, updates[..n], k);
      assert forall j :: 0 <= j < n ==> updates[..n][j] == updates[j];
      if updates[n].0 != k && exists j :: 0 <= j < |updates| && updates[j].0 == k {
        var j :| 0 <= j < |updates| && updates[j].0 == k;
        assert updates[..n][j].0 == k;
      }
    }
  }

  lemma CoreStamps(cfg: Config, w: World, g: Graph)
    requires CoreInv(cfg, w, g)
    ensures forall k :: k in g.recs ==> StampsOk(g, k)
  {}

  lemma OneInput(g: Graph, recs: map<Key, Record>, k: Key, v: Value)
    requires k.Input? && (k in g.recs ==> StampsOk(g, k)) && k in recs && recs[k].answer == Val(v)
    requires forall q :: q != k ==> (q in recs <==> q in g.recs) && (q in recs ==> recs[q] == g.recs[q])
    ensures InputsOf(recs) == InputsOf(g.recs)[k := v]
    ensures (k in InputsOf(g.recs) && InputsOf(g.recs)[k] == v) <==> (k in g.recs && g.recs[k].answer == Val(v))
  {}

  ghost predicate SameAnswers(recs: map<Key, Record>, recs': map<Key, Record>) {
    InputsOnly(recs, recs') &&
    forall k :: (k in recs <==> k in recs') &&
      (k in recs ==> recs'[k].answer == recs[k].answer && recs'[k].changedAt == recs[k].changedAt)
  }

  /** An input carries the revision `rev` exactly if its value changed. */
  ghost predicate ChangesStamped(recs: map<Key, Record>, recs': map<Key, Record>, rev: nat) {
    forall k: Key :: k.Input? && k in recs' ==>
      recs'[k].changedAt == if k in recs && recs[k].answer == recs'[k].answer then recs[k].changedAt else rev
  }

  lemma StampedSince(recs: map<Key, Record>, recs': map<Key, Record>, recs'': map<Key, Record>, rev: nat)
    requires SameAnswers(recs, recs')
    ensures ChangesStamped(recs, recs', rev)
    ensures ChangesStamped(recs', recs'', rev) ==> ChangesStamped(recs, recs'', rev)
  {}

  /** Nothing but inputs changed. */
  ghost predicate InputsOnly(recs: map<Key, Record>, recs': map<Key, Record>) {
    forall k: Key :: !k.Input? ==> (k in recs <==> k in recs') && (k in recs ==> recs'[k] == recs[k])
  }

  ghost predicate Applied(recs: map<Key, Record>, recs': map<Key, Record>, applied: map<Key, Value>, rev: nat) {
    && (forall k :: k in recs' <==> k in recs || k in applied)
    && (forall k :: k in recs' ==> recs'[k] == if k in applied then InputRecord(applied[k], rev) else recs[k])
  }

  /** `equal[i]` says whether update `i` leaves its input as it is. */
  ghost predicate Decided(recs: map<Key, Record>, updates: seq<(Key, Value)>, equal: seq<bool>) {
    && |equal| == |updates|
    && forall j :: 0 <= j < |equal| ==>
         (equal[j] <==> updates[j].0 in recs && recs[updates[j].0].answer == Val(updates[j].1))
  }

  /** `applied` is exactly the updates that changed something. */
  ghost predicate ChangesOf(updates: seq<(Key, Value)>, equal: seq<bool>, applied: map<Key, Value>)
    requires |equal| == |updates|
  {
    && (forall k :: k in applied ==> exists j :: 0 <= j < |updates| && !equal[j] && updates[j] == (k, applied[k]))
    && (forall j :: 0 <= j < |updates| && !equal[j] ==>
          updates[j].0 in applied && applied[updates[j].0] == updates[j].1)
  }

  lemma NothingApplied(recs: map<Key, Record>, rev: nat)
    ensures Applied(recs, recs, map[], rev) && ChangesOf([], [], map[])
  {}

  lemma AppliedStep(recs: map<Key, Record>, recs': map<Key, Record>, applied: map<Key, Value>, rev: nat, k: Key,
      v: Value)
    requires Applied(recs, recs', applied, rev)
    ensures Applied(recs, recs'[k := InputRecord(v, rev)], applied[k := v], rev)
  {}

  lemma ChangesLand(cfg: Config, w: World, g: Graph, g': Graph, applied: map<Key, Value>)
    requires CoreInv(cfg, w, g) && (forall k :: k in applied ==> k.Input?)
    requires g' == g.(rev := g.rev + 1, recs := g'.recs) && Applied(g.recs, g'.recs, applied, g.rev + 1)
    ensures CoreInv(cfg, w, g')
  {
    ChangedInputsStep(cfg, w, g, g', applied);
  }

  lemma BatchInput(updates: seq<(Key, Value)>, i: nat)
    requires BatchOk(updates) && i < |updates|
    ensures updates[i].0.Input?
  {}

  lemma ChangesStep(updates: seq<(Key, Value)>, equal: seq<bool>, i: nat, applied: map<Key, Value>)
    requires BatchOk(updates) && |equal| == |updates| && i < |updates| && ChangesOf(updates[..i], equal[..i], applied)
    ensures ChangesOf(updates[..i + 1], equal[..i + 1],
                      if equal[i] then applied else applied[updates[i].0 := updates[i].1])
  {
    var applied' := if equal[i] then applied else applied[updates[i].0 := updates[i].1];
    var u, e := updates[..i + 1], equal[..i + 1];
    forall k | k in applied' ensures exists j :: 0 <= j < |u| && !e[j] && u[j] == (k, applied'[k]) {
      if !equal[i] && k == updates[i].0 {
        assert u[i] == (k, applied'[k]);
      } else {
        var j :| 0 <= j < i && !equal[..i][j] && updates[..i][j] == (k, applied[k]);
        assert !e[j] && u[j] == (k, applied'[k]);
      }
    }
    forall j | 0 <= j < |u| && !e[j] ensures u[j].0 in applied' && applied'[u[j].0] == u[j].1 {
      if j < i {
        assert !equal[..i][j] && updates[..i][j] == u[j];
      }
    }
  }

  lemma UpdatesMeaning(g: Graph, g': Graph, updates: seq<(Key, Value)>, equal: seq<bool>)
    requires SameAnswers(g.recs, g'.recs) && BatchOk(updates) && Decided(g.recs, updates, equal)
    requires forall k :: k in g.recs ==> StampsOk(g, k)
    ensures InputsOf(g'.recs) == InputsOf(g.recs)
    ensures (forall j :: 0 <= j < |equal| ==> equal[j]) ==> WithUpdates(InputsOf(g.recs), updates) == InputsOf(g.recs)
  {
    var inputs := InputsOf(g.recs);
    if forall j :: 0 <= j < |equal| ==> equal[j] {
      forall k
        ensures k in WithUpdates(inputs, updates) <==> k in inputs
        ensures k in inputs ==> WithUpdates(inputs, updates)[k] == inputs[k]
      {
        WithUpdatesAt(inputs, updates, k);
      }
    }
  }

  lemma AppliedMeaning(g: Graph, g': Graph, updates: seq<(Key, Value)>, equal: seq<bool>, applied: map<Key, Value>)
    requires BatchOk(updates) && Decided(g.recs, updates, equal) && Applied(g.recs, g'.recs, applied, g'.rev)
    requires forall k :: k in g.recs ==> StampsOk(g, k)
    requires ChangesOf(updates, equal, applied)
    requires exists j :: 0 <= j < |equal| && !equal[j]
    ensures InputsOf(g'.recs) == WithUpdates(InputsOf(g.recs), updates) != InputsOf(g.recs)
    ensures forall k :: k in g.recs ==> k in g'.recs
    ensures InputsOnly(g.recs, g'.recs) && ChangesStamped(g.recs, g'.recs, g'.rev)
  {
    hide BatchOk; hide Decided; hide Applied; hide ChangesOf; hide InputsOf; hide WithUpdates;
    var inputs, inputs' := InputsOf(g.recs), InputsOf(g'.recs);
    forall k
      ensures k in WithUpdates(inputs, updates) <==> k in inputs'
      ensures k in inputs' ==> WithUpdates(inputs, updates)[k] == inputs'[k]
      ensures k in g.recs ==> k in g'.recs
      ensures !k.Input? ==> (k in g.recs <==> k in g'.recs) && (k in g'.recs ==> g'.recs[k] == g.recs[k])
      ensures k in g'.recs ==>
        g'.recs[k].changedAt ==
        if k in g.recs && g.recs[k].answer == g'.recs[k].answer then g.recs[k].changedAt else g'.rev
    {
      AppliedAt(g, g', updates, equal, applied, k);
    }
    var j :| 0 <= j < |equal| && !equal[j];
    ChangeSeen(g, g', updates, equal, applied, j);
  }

  lemma ChangeSeen(g: Graph, g': Graph, updates: seq<(Key, Value)>, equal: seq<bool>, applied: map<Key, Value>, j: nat)
    requires BatchOk(updates) && Decided(g.recs, updates, equal) && Applied(g.recs, g'.recs, applied, g'.rev)
    requires (forall k :: k in g.recs ==> StampsOk(g, k)) && ChangesOf(updates, equal, applied)
    requires j < |equal| && !equal[j]
    ensures InputsOf(g'.recs) != InputsOf(g.recs)
  {
    assert updates[j].0 in InputsOf(g'.recs);
  }

  lemma AppliedAt(g: Graph, g': Graph, updates: seq<(Key, Value)>, equal: seq<bool>, applied: map<Key, Value>, k: Key)
    requires BatchOk(updates) && Decided(g.recs, updates, equal) && Applied(g.recs, g'.recs, applied, g'.rev)
    requires (forall k :: k in g.recs ==> StampsOk(g, k)) && ChangesOf(updates, equal, applied)
    ensures var inputs, inputs' := InputsOf(g.recs), InputsOf(g'.recs);
            && (k in WithUpdates(inputs, updates) <==> k in inputs')
            && (k in inputs' ==> WithUpdates(inputs, updates)[k] == inputs'[k])
    ensures k in g.recs ==> k in g'.recs
    ensures !k.Input? ==> (k in g.recs <==> k in g'.recs) && (k in g'.recs ==> g'.recs[k] == g.recs[k])
    ensures k in g'.recs ==>
      g'.recs[k].changedAt ==
      if k in g.recs && g.recs[k].answer == g'.recs[k].answer then g.recs[k].changedAt else g'.rev
  {
    hide WithUpdates;
    WithUpdatesAt(InputsOf(g.recs), updates, k);
    if k in applied {
      var j :| 0 <= j < |updates| && !equal[j] && updates[j] == (k, applied[k]);
      assert updates[j].0 == k;
    } else if j :| 0 <= j < |updates| && updates[j].0 == k {
      assert equal[j];
    }
  }
}
