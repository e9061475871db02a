/** Request spans shared by threads.

    A thread may hold one request open over several calls; inside it a node is checked once. Threads
    interleave between calls, each of which holds the state lock. Whatever the interleaving, no call
    answers from a check that a declared change has overtaken.
 */
module Spans {
  import opened Programs
  import opened Options

  type Thread = nat

  /** The request a thread holds open: its current id, the epoch it last caught up with, and how many
      spans are nested in it. */
  datatype Span = Span(id: nat, seen: nat, depth: nat)

  datatype Event = Changed | Checked(key: Key, id: nat) | Reused(key: Key, id: nat) | Dropped(key: Key)

  /** How often the world was declared changed. */
  ghost function Changes(log: seq<Event>): nat {
    if log == [] then 0 else Changes(log[..|log| - 1]) + if log[|log| - 1].Changed? then 1 else 0
  }

  /** Records are dropped, exactly those of `evicted`. */
  ghost predicate Sweeps(part: seq<Event>, evicted: set<Key>) {
    && (forall j :: 0 <= j < |part| ==> part[j].Dropped? && part[j].key in evicted)
    && (forall k :: k in evicted ==> Dropped(k) in part)
  }

  /** The request that checked `k` last, if its record is still there. */
  ghost function Holder(log: seq<Event>, k: Key): Option<nat> {
    if log == [] then None
    else
      match log[|log| - 1]
      case Checked(key, id) => if key == k then Some(id) else Holder(log[..|log| - 1], k)
      case Dropped(key) => if key == k then None else Holder(log[..|log| - 1], k)
      case _ => Holder(log[..|log| - 1], k)
  }

  /** `log[j]` answers from a check of the same request, nothing having been declared changed since. */
  ghost predicate FreshAt(log: seq<Event>, j: nat)
    requires j < |log| && log[j].Reused?
  {
    exists i :: 0 <= i < j && log[i] == Checked(log[j].key, log[j].id) && forall m :: i < m < j ==> !log[m].Changed?
  }

  /** A node is checked anew exactly if its last check was not this request's. */
  ghost predicate OnceAt(log: seq<Event>, j: nat)
    requires j < |log|
  {
    match log[j]
    case Checked(k, id) => Holder(log[..j], k) != Some(id)
    case Reused(k, id) => Holder(log[..j], k) == Some(id)
    case _ => true
  }

  ghost predicate LogOk(log: seq<Event>) {
    forall j :: 0 <= j < |log| ==> OnceAt(log, j) && (log[j].Reused? ==> FreshAt(log, j))
  }

  lemma {:induction false} ChangesOrdered(log: seq<Event>, i: nat, j: nat)
    requires i <= j <= |log|
    ensures Changes(log[..i]) <= Changes(log[..j])
    ensures Changes(log[..i]) == Changes(log[..j]) ==> forall m :: i <= m < j ==> !log[m].Changed?
    decreases j
  {
    if i < j {
      assert log[..j][..j - 1] == log[..j - 1];
      ChangesOrdered(log, i, j - 1);
    }
  }

  /** The last check of `k`, and that nothing has replaced it since. */
  lemma {:induction false} HolderChecked(log: seq<Event>, k: Key) returns (i: nat)
    requires Holder(log, k).Some?
    ensures i < |log| && log[i] == Checked(k, Holder(log, k).value)
  {
    var n := |log| - 1;
    if log[n].Checked? && log[n].key == k {
      i := n;
    } else {
      i := HolderChecked(log[..n], k);
    }
  }

  class Clock {
    var epoch: nat
    var counter: nat
    var spans: map<Thread, Span>
    var checkedIn: map<Key, nat>
    ghost var log: seq<Event>
    /** The epoch each request id was made in. */
    ghost var minted: map<nat, nat>

    ghost predicate Valid()
      reads this
    {
      && epoch == Changes(log) && LogOk(log)
      && (forall id :: id in minted <==> 1 <= id <= counter)
      && (forall t :: t in spans ==> spans[t].id in minted && minted[spans[t].id] == spans[t].seen <= epoch)
      && (forall t, u :: t in spans && u in spans && t != u ==> spans[t].id != spans[u].id)
      && HoldersOk(log, checkedIn)
      && IdsMinted(log, minted)
    }

    constructor ()
      ensures Valid() && spans == map[] && log == []
    {
      epoch, counter, spans, checkedIn, log, minted := 0, 0, map[], map[], [], map[];
    }

    /** Makes a request id no check has carried yet. */
    method Mint() returns (id: nat)
      requires Valid()
      modifies this`counter, this`minted
      ensures Valid() && counter == id == old(counter) + 1 && minted == old(minted)[id := epoch]
      ensures forall t :: t in spans ==> spans[t].id != id
      ensures forall j :: 0 <= j < |log| && (log[j].Checked? || log[j].Reused?) ==> log[j].id != id
    {
      counter := counter + 1;
      minted := minted[counter := epoch];
      return counter;
    }

    /** Moves the thread's own span onto a new request if the world was declared changed since the
        span last looked. */
    method Sync(t: Thread)
      requires Valid()
      modifies this`counter, this`minted, this`spans
      ensures Valid() && spans.Keys == old(spans.Keys)
      ensures Others(old(spans), spans, t) && Grown(old(minted), minted)
      ensures t in spans ==> CaughtUp(old(spans), spans, t, epoch, old(minted), spans[t].id)
      ensures t in spans ==> spans[t].seen == epoch && spans[t].depth == old(spans[t].depth)
      ensures t in spans && old(spans[t].seen) == epoch ==> spans == old(spans)
      ensures t in spans && old(spans[t].seen) != epoch ==>
        forall j :: 0 <= j < |log| && (log[j].Checked? || log[j].Reused?) ==> log[j].id != spans[t].id
    {
      if t !in spans || spans[t].seen == epoch { return; }
      var id := Mint();
      spans := spans[t := spans[t].(id := id, seen := epoch)];
    }

    /** Opens a span, or joins the one the thread has open. */
    method Open(t: Thread)
      requires Valid()
      modifies this
      ensures Valid() && log == old(log) && t in spans && spans[t].seen == epoch == old(epoch)
      ensures spans.Keys == old(spans).Keys + {t} && Others(old(spans), spans, t) && Grown(old(minted), minted)
      ensures CaughtUp(old(spans), spans, t, epoch, old(minted), spans[t].id)
      ensures spans[t].depth == if t in old(spans) then old(spans[t].depth) + 1 else 1
    {
      if t in spans {
        Sync(t);
        spans := spans[t := spans[t].(depth := spans[t].depth + 1)];
      } else {
        var id := Mint();
        spans := spans[t := Span(id, epoch, 1)];
      }
    }

    /** Closes a span; with the outermost one the request ends, and records may be evicted. */
    method Close(t: Thread, evicted: set<Key>)
      requires Valid() && t in spans && spans[t].depth > 0
      modifies this`spans, this`checkedIn, this`log
      ensures Valid() && epoch == old(epoch) && minted == old(minted)
      ensures if old(spans[t].depth) > 1
              then spans == old(spans)[t := old(spans[t]).(depth := old(spans[t].depth) - 1)] && log == old(log)
              else spans == old(spans) - {t} && old(log) <= log && Sweeps(log[|old(log)|..], evicted)
    {
      if spans[t].depth > 1 {
        spans := spans[t := spans[t].(depth := spans[t].depth - 1)];
        return;
      }
      spans := spans - {t};
      Evict(evicted);
    }

    /** `set`, `set_many`, or a declaration by the caller: the world is another one from here on. */
    method Declare(t: Thread)
      requires Valid()
      modifies this
      ensures Valid() && epoch == old(epoch) + 1 && log == old(log) + [Changed] && spans.Keys == old(spans.Keys)
      ensures Others(old(spans), spans, t) && Grown(old(minted), minted)
      ensures t in spans ==>
        spans[t].seen == epoch && spans[t].id !in old(minted) && spans[t].depth == old(spans[t].depth)
    {
      epoch := epoch + 1;
      log := log + [Changed];
      assert log[..|log| - 1] == old(log);
      Extend(old(log), log, minted);
      Sync(t);
    }

    /** One call: it joins the thread's span, or is a request of its own, and visits nodes. `id` is the request all
        its visits belong to: that of the span, or a new one. Only at the end of a request of its own are records
        evicted. */
    method Get(t: Thread, visits: seq<Key>, evicted: set<Key>) returns (ghost id: nat)
      requires Valid()
      modifies this
      ensures Valid() && epoch == old(epoch) && spans.Keys == old(spans.Keys)
      ensures Others(old(spans), spans, t) && Grown(old(minted), minted) && id in minted
      ensures CaughtUp(old(spans), spans, t, epoch, old(minted), id)
      ensures t in spans ==> spans[t].seen == epoch && spans[t].id == id && spans[t].depth == old(spans[t].depth)
      ensures t !in spans ==> forall u :: u in spans ==> spans[u].id != id
      ensures |log| >= |old(log)| + |visits| && old(log) <= log
      ensures forall i :: 0 <= i < |visits| ==> Visited(log[|old(log)| + i], visits[i], id)
      ensures if t in spans then |log| == |old(log)| + |visits| else Sweeps(log[|old(log)| + |visits|..], evicted)
    {
      hide Changes; hide HoldersOk; hide LogOk; hide IdsMinted; hide Sweeps;
      var request: nat;
      if t in spans {
        Sync(t);
        request := spans[t].id;
      } else {
        request := Mint();
      }
      id := request;
      ghost var before, open, made := log, spans, minted;
      for i := 0 to |visits|
        invariant Valid() && epoch == old(epoch) && spans == open && minted == made
        invariant id in minted && minted[id] == epoch && |log| == |before| + i && before <= log
        invariant forall j :: 0 <= j < i ==> Visited(log[|before| + j], visits[j], id)
      {
        Visit(visits[i], request);
      }
      if t !in spans { Evict(evicted); }
    }

    /** One node of a call: answered from the record if this request has checked it. */
    method Visit(k: Key, id: nat)
      requires Valid() && id in minted && minted[id] == epoch
      modifies this`checkedIn, this`log
      ensures Valid() && k in checkedIn && checkedIn[k] == id
      ensures log ==
              old(log) + [if k in old(checkedIn) && old(checkedIn)[k] == id then Reused(k, id) else Checked(k, id)]
    {
      hide Changes; hide HoldersOk; hide LogOk; hide IdsMinted;
      var reuse := k in checkedIn && checkedIn[k] == id;
      if !reuse { checkedIn := checkedIn[k := id]; }
      log := log + [if reuse then Reused(k, id) else Checked(k, id)];
      VisitLogged(old(log), old(checkedIn), minted, k, id);
    }

    method Evict(evicted: set<Key>)
      requires Valid()
      modifies this`checkedIn, this`log
      ensures Valid() && old(log) <= log && checkedIn == old(checkedIn) - evicted
      ensures Sweeps(log[|old(log)|..], evicted)
    {
      hide LogOk; hide IdsMinted; hide HoldersOk; hide Changes; hide Sweeps;
      NothingSwept();
      var rest := evicted;
      assert evicted - rest == {};
      ghost var part := [];
      while rest != {}
        invariant Valid() && rest <= evicted && log == old(log) + part && checkedIn == old(checkedIn) - (evicted - rest)
        invariant Sweeps(part, evicted - rest)
      {
        var k :| k in rest;
        DropLogged(log, checkedIn, minted, k);
        SweepsMore(part, evicted - rest, k);
        assert evicted - (rest - {k}) == evicted - rest + {k};
        checkedIn, log, part := checkedIn - {k}, log + [Dropped(k)], part + [Dropped(k)];
        rest := rest - {k};
      }
      assert log[|old(log)|..] == part && evicted - rest == evicted;
    }
  }

  lemma NothingSwept()
    ensures Sweeps([], {})
  {}

  lemma DropLogged(log: seq<Event>, checkedIn: map<Key, nat>, minted: map<nat, nat>, k: Key)
    requires LogOk(log) && IdsMinted(log, minted) && HoldersOk(log, checkedIn)
    ensures var log' := log + [Dropped(k)];
            LogOk(log') && IdsMinted(log', minted) && HoldersOk(log', checkedIn - {k}) && Changes(log') == Changes(log)
  {
    hide LogOk; hide IdsMinted;
    var log' := log + [Dropped(k)];
    assert log'[..|log'| - 1] == log == log'[..|log|];
    Extend(log, log', minted);
  }

  lemma SweepsMore(part: seq<Event>, evicted: set<Key>, k: Key)
    requires Sweeps(part, evicted)
    ensures Sweeps(part + [Dropped(k)], evicted + {k})
  {}

  ghost predicate Others(spans: map<Thread, Span>, spans': map<Thread, Span>, t: Thread) {
    forall u :: u in spans' && u != t ==> u in spans && spans'[u] == spans[u]
  }

  ghost predicate Grown(minted: map<nat, nat>, minted': map<nat, nat>) {
    forall id :: id in minted ==> id in minted'
  }

  /** `id` is that of the thread's span, if this is up to date with the declared changes, or else a new one. */
  ghost predicate CaughtUp(spans: map<Thread, Span>, spans': map<Thread, Span>, t: Thread, epoch: nat,
      minted: map<nat, nat>, id: nat)
  {
    if t in spans && spans[t].seen == epoch then t in spans' && spans'[t].id == id == spans[t].id else id !in minted
  }

  ghost predicate HoldersOk(log: seq<Event>, checkedIn: map<Key, nat>) {
    forall k :: Holder(log, k) == if k in checkedIn then Some(checkedIn[k]) else None
  }

  ghost predicate Visited(e: Event, k: Key, id: nat) {
    (e.Checked? || e.Reused?) && e.key == k && e.id == id
  }

  /** A check carries an id made in the epoch it was done in. */
  ghost predicate IdsMinted(log: seq<Event>, minted: map<nat, nat>) {
    forall j :: 0 <= j < |log| && (log[j].Checked? || log[j].Reused?) ==>
      log[j].id in minted && minted[log[j].id] == Changes(log[..j])
  }

  /** What the request itself checked, it checked in this epoch. */
  lemma ReuseIsFresh(log: seq<Event>, minted: map<nat, nat>, k: Key, id: nat)
    requires IdsMinted(log, minted) && Holder(log, k) == Some(id) && id in minted && minted[id] == Changes(log)
    ensures FreshAt(log + [Reused(k, id)], |log|)
  {
    var log' := log + [Reused(k, id)];
    var i := HolderChecked(log, k);
    assert log'[i] == Checked(k, id);
    assert log[..|log|] == log && log'[..|log|] == log && log'[..i] == log[..i];
    ChangesOrdered(log, i, |log|);
  }

  lemma VisitLogged(log: seq<Event>, checkedIn: map<Key, nat>, minted: map<nat, nat>, k: Key, id: nat)
    requires LogOk(log) && IdsMinted(log, minted) && HoldersOk(log, checkedIn) && id in minted
    requires minted[id] == Changes(log)
    ensures var reuse := k in checkedIn && checkedIn[k] == id;
            var log' := log + [if reuse then Reused(k, id) else Checked(k, id)];
            && LogOk(log') && IdsMinted(log', minted)
            && HoldersOk(log', if reuse then checkedIn else checkedIn[k := id])
            && Changes(log') == Changes(log)
  {
    hide LogOk; hide IdsMinted; hide FreshAt;
    var reuse := k in checkedIn && checkedIn[k] == id;
    var log' := log + [if reuse then Reused(k, id) else Checked(k, id)];
    assert log'[..|log'| - 1] == log == log'[..|log|];
    if reuse { ReuseIsFresh(log, minted, k, id); }
    Extend(log, log', minted);
  }

  /** One more event leaves what was said of the earlier ones standing. */
  lemma Extend(log: seq<Event>, log': seq<Event>, minted: map<nat, nat>)
    requires LogOk(log) && IdsMinted(log, minted) && |log'| == |log| + 1 && log'[..|log|] == log
    ensures LogOk(log') <==> OnceAt(log', |log|) && (log'[|log|].Reused? ==> FreshAt(log', |log|))
    ensures IdsMinted(log', minted) <==>
      (log'[|log|].Checked? || log'[|log|].Reused? ==>
        log'[|log|].id in minted && minted[log'[|log|].id] == Changes(log))
  {
    hide Changes; hide Holder;
    forall j | 0 <= j < |log| ensures log'[..j] == log[..j] && log'[j] == log[j] {}
    OnceLonger(log, log');
    hide OnceAt; hide FreshAt;
    forall j | LogOk(log) && 0 <= j < |log| && log[j].Reused? ensures FreshAt(log', j) {
      FreshLonger(log, log', j);
    }
  }

  lemma OnceLonger(log: seq<Event>, log': seq<Event>)
    requires |log'| == |log| + 1 && log'[..|log|] == log
    ensures forall j :: 0 <= j < |log| ==> (OnceAt(log', j) <==> OnceAt(log, j))
  {
    hide Changes; hide Holder;
    forall j | 0 <= j < |log| ensures log'[..j] == log[..j] && log'[j] == log[j] {}
  }

  lemma FreshLonger(log: seq<Event>, log': seq<Event>, j: nat)
    requires |log'| == |log| + 1 && log'[..|log|] == log && j < |log| && log[j].Reused? && FreshAt(log, j)
    ensures log'[j] == log[j] && FreshAt(log', j)
  {
    assert forall m :: 0 <= m < |log| ==> log'[m] == log'[..|log|][m];
    var i :| 0 <= i < j && log[i] == Checked(log[j].key, log[j].id) && forall m :: i < m < j ==> !log[m].Changed?;
    assert log'[i] == log[i];
  }

  // ---------------------------------------------------------------------------------------------
  // Every interleaving

  datatype Call =
    | OpenSpan(t: Thread)
    | CloseSpan(t: Thread, evicted: set<Key>)
    | Change(t: Thread)
    | Read(t: Thread, visits: seq<Key>, evicted: set<Key>)

  /** How many spans thread `t` has open after the first `n` calls. */
  ghost function Depth(calls: seq<Call>, n: nat, t: Thread): nat
    requires n <= |calls|
  {
    if n == 0 then 0
    else
      var d := Depth(calls, n - 1, t);
      match calls[n - 1]
      case OpenSpan(u) => if u == t then d + 1 else d
      case CloseSpan(u, _) => if u == t && d > 0 then d - 1 else d
      case _ => d
  }

  /** From call `i` up to where call `n` begins the thread of call `i` has a span open, and no change is declared. */
  ghost predicate Since(calls: seq<Call>, i: nat, n: nat)
    requires i <= n <= |calls| && i < |calls|
  {
    && (forall m :: i <= m <= n ==> Depth(calls, m, calls[i].t) > 0)
    && (forall m :: i < m < n ==> !calls[m].Change?)
  }

  /** Calls `i` and `j` belong to one request: made by one thread within one span, with no change declared by any
      thread between them. */
  ghost predicate OneRequest(calls: seq<Call>, i: nat, j: nat)
    requires i < j < |calls|
  {
    calls[i].t == calls[j].t && Since(calls, i, j)
  }

  /** The ids the first `n` calls used: the same exactly within one request. A span up to date with the declared
      changes has the id of the reads it would share a request with. */
  ghost predicate IdsOk(calls: seq<Call>, n: nat, ids: seq<nat>, spans: map<Thread, Span>, epoch: nat,
      minted: map<nat, nat>)
    requires n <= |calls|
  {
    && |ids| == n
    && (forall t :: t in spans <==> Depth(calls, n, t) > 0)
    && (forall t :: t in spans ==> spans[t].depth == Depth(calls, n, t))
    && (forall i :: 0 <= i < n && calls[i].Read? ==> ids[i] in minted)
    && (forall i, j :: 0 <= i < j < n && calls[i].Read? && calls[j].Read? ==>
          (ids[i] == ids[j] <==> OneRequest(calls, i, j)))
    && (forall t, i :: t in spans && 0 <= i < n && calls[i].Read? ==>
          SpanIdOk(calls, n, ids, spans[t], epoch, t, i))
  }

  ghost predicate SpanIdOk(calls: seq<Call>, n: nat, ids: seq<nat>, span: Span, epoch: nat, t: Thread, i: nat)
    requires i < n <= |calls| && n == |ids|
  {
    if span.seen == epoch then span.id == ids[i] <==> calls[i].t == t && Since(calls, i, n)
    else !(calls[i].t == t && Since(calls, i, n))
  }

  lemma SinceNext(calls: seq<Call>, i: nat, n: nat)
    requires i <= n < |calls|
    ensures Since(calls, i, n + 1) <==>
      Since(calls, i, n) && Depth(calls, n + 1, calls[i].t) > 0 && (i < n ==> !calls[n].Change?)
  {}

  /** What a call makes of the spans; `id` is the one it uses. */
  ghost predicate Stepped(call: Call, spans: map<Thread, Span>, epoch: nat, minted: map<nat, nat>,
      spans': map<Thread, Span>, epoch': nat, minted': map<nat, nat>, id: nat)
  {
    var t := call.t;
    && Grown(minted, minted')
    && (forall t, u :: t in spans' && u in spans' && t != u ==> spans'[t].id != spans'[u].id)
    && Others(spans, spans', t)
    && match call
       case OpenSpan(_) =>
         && epoch' == epoch && spans'.Keys == spans.Keys + {t} && spans'[t].seen == epoch
         && CaughtUp(spans, spans', t, epoch, minted, spans'[t].id)
         && spans'[t].depth == if t in spans then spans[t].depth + 1 else 1
       case CloseSpan(_, _) =>
         && epoch' == epoch
         && spans' == if t !in spans then spans
                      else if spans[t].depth > 1 then spans[t := spans[t].(depth := spans[t].depth - 1)]
                      else spans - {t}
       case Change(_) =>
         && epoch' == epoch + 1 && spans'.Keys == spans.Keys
         && (t in spans' ==>
               spans'[t].seen == epoch' && spans'[t].id !in minted && spans'[t].depth == spans[t].depth)
       case Read(_, _, _) =>
         && epoch' == epoch && spans'.Keys == spans.Keys && id in minted'
         && CaughtUp(spans, spans', t, epoch, minted, id)
         && (t in spans' ==>
               spans'[t].seen == epoch && spans'[t].id == id && spans'[t].depth == spans[t].depth)
         && (t !in spans' ==> forall u :: u in spans' ==> spans'[u].id != id)
  }

  /** One call more: the spans and ids after it, for a read `id` the one it used. */
  lemma CallMore(calls: seq<Call>, n: nat, ids: seq<nat>, spans: map<Thread, Span>, epoch: nat, minted: map<nat, nat>,
      spans': map<Thread, Span>, epoch': nat, minted': map<nat, nat>, id: nat)
    requires n < |calls| && IdsOk(calls, n, ids, spans, epoch, minted)
    requires forall t :: t in spans ==> spans[t].seen <= epoch && spans[t].id in minted
    requires forall t, u :: t in spans && u in spans && t != u ==> spans[t].id != spans[u].id
    requires Stepped(calls[n], spans, epoch, minted, spans', epoch', minted', id)
    ensures IdsOk(calls, n + 1, ids + [id], spans', epoch', minted')
  {
    hide Since; hide SpanIdOk;
    var c := calls[n];
    forall i | 0 <= i < n && calls[i].Read? && c.Read? ensures ids[i] == id <==> OneRequest(calls, i, n) {
      ReadMore(calls, n, ids, spans, epoch, minted, spans', epoch', minted', id, i);
    }
    forall t, i | t in spans' && 0 <= i < n + 1 && calls[i].Read?
      ensures SpanIdOk(calls, n + 1, ids + [id], spans'[t], epoch', t, i)
    {
      SpanMore(calls, n, ids, spans, epoch, minted, spans', epoch', minted', id, t, i);
    }
  }

  lemma ReadMore(calls: seq<Call>, n: nat, ids: seq<nat>, spans: map<Thread, Span>, epoch: nat, minted: map<nat, nat>,
      spans': map<Thread, Span>, epoch': nat, minted': map<nat, nat>, id: nat, i: nat)
    requires n < |calls| && IdsOk(calls, n, ids, spans, epoch, minted)
    requires Stepped(calls[n], spans, epoch, minted, spans', epoch', minted', id)
    requires i < n && calls[i].Read? && calls[n].Read?
    ensures ids[i] == id <==> OneRequest(calls, i, n)
  {
    hide Since;
    SinceOpen(calls, i, n);
    if calls[n].t in spans { assert SpanIdOk(calls, n, ids, spans[calls[n].t], epoch, calls[n].t, i); }
  }

  lemma SpanMore(calls: seq<Call>, n: nat, ids: seq<nat>, spans: map<Thread, Span>, epoch: nat, minted: map<nat, nat>,
      spans': map<Thread, Span>, epoch': nat, minted': map<nat, nat>, id: nat, t: Thread, i: nat)
    requires n < |calls| && IdsOk(calls, n, ids, spans, epoch, minted)
    requires forall t :: t in spans ==> spans[t].seen <= epoch && spans[t].id in minted
    requires forall t, u :: t in spans && u in spans && t != u ==> spans[t].id != spans[u].id
    requires Stepped(calls[n], spans, epoch, minted, spans', epoch', minted', id)
    requires t in spans' && i < n + 1 && calls[i].Read?
    ensures SpanIdOk(calls, n + 1, ids + [id], spans'[t], epoch', t, i)
  {
    hide Since;
    SinceNext(calls, i, n);
    SinceOpen(calls, i, n);
    if i < n && t in spans { assert SpanIdOk(calls, n, ids, spans[t], epoch, t, i); }
  }

  lemma SinceOpen(calls: seq<Call>, i: nat, n: nat)
    requires i <= n <= |calls| && i < |calls|
    ensures Since(calls, i, n) ==> Depth(calls, n, calls[i].t) > 0
    ensures i == n && Depth(calls, n, calls[i].t) > 0 ==> Since(calls, i, n)
  {}

  /** What one call adds to the log: its visits, each under `id`, a declared change, and, where it ends a request,
      the records evicted then. `open`: how many spans its thread had open. */
  ghost predicate Tells(call: Call, id: nat, open: nat, part: seq<Event>) {
    match call
    case OpenSpan(_) => part == []
    case CloseSpan(_, evicted) => if open == 1 then Sweeps(part, evicted) else part == []
    case Change(_) => part == [Changed]
    case Read(_, visits, evicted) =>
      && |visits| <= |part| && (forall i :: 0 <= i < |visits| ==> Visited(part[i], visits[i], id))
      && if open == 0 then Sweeps(part[|visits|..], evicted) else |part| == |visits|
  }

  ghost function Whole(parts: seq<seq<Event>>): seq<Event> {
    if parts == [] then [] else Whole(parts[..|parts| - 1]) + parts[|parts| - 1]
  }

  lemma WholeMore(parts: seq<seq<Event>>, part: seq<Event>)
    ensures Whole(parts + [part]) == Whole(parts) + part
  {
    assert (parts + [part])[..|parts|] == parts;
  }

  /** One call of one thread; `part` is what it adds to the log. */
  method Perform(clock: Clock, call: Call) returns (ghost id: nat, ghost part: seq<Event>)
    requires clock.Valid() && forall t :: t in clock.spans ==> clock.spans[t].depth > 0
    modifies clock
    ensures clock.Valid() && clock.log == old(clock.log) + part
    ensures Stepped(call, old(clock.spans), old(clock.epoch), old(clock.minted), clock.spans, clock.epoch, clock.minted,
              id)
    ensures Tells(call, id, if call.t in old(clock.spans) then old(clock.spans[call.t].depth) else 0, part)
  {
    hide LogOk; hide IdsMinted; hide HoldersOk; hide Changes; hide Sweeps;
    id := 0;
    ghost var before, spans, minted := clock.log, clock.spans, clock.minted;
    OthersSame(spans, call.t, minted);
    match call {
      case OpenSpan(t) => clock.Open(t);
      case CloseSpan(t, evicted) => if t in clock.spans { clock.Close(t, evicted); }
      case Change(t) => clock.Declare(t);
      case Read(t, visits, evicted) => id := clock.Get(t, visits, evicted);
    }
    part := clock.log[|before|..];
  }

  /** Whatever order the threads' calls take the lock in, the log is what they visited, declared and evicted, call by
      call. Two reads are one request exactly if they are made within one span with no change declared between
      them, and an answer from the record rests on a check by the same request with no change declared, by any
      thread, in between. */
  method Interleave(calls: seq<Call>)
    returns (ghost log: seq<Event>, ghost ids: seq<nat>, ghost parts: seq<seq<Event>>, clock: Clock)
    ensures clock.Valid() && log == clock.log && LogOk(log)
    ensures |ids| == |parts| == |calls| && log == Whole(parts)
    ensures forall n :: 0 <= n < |calls| ==> Tells(calls[n], ids[n], Depth(calls, n, calls[n].t), parts[n])
    ensures forall i, j :: 0 <= i < j < |calls| && calls[i].Read? && calls[j].Read? ==>
      (ids[i] == ids[j] <==> OneRequest(calls, i, j))
  {
    hide LogOk; hide IdsMinted; hide HoldersOk; hide Changes; hide OneRequest; hide SpanIdOk;
    hide Grown; hide CaughtUp; hide IdsOk; hide Depth; hide Sweeps; hide Whole; hide Tells; hide Stepped;
    clock := new Clock();
    ids, parts := [], [];
    NothingTold(calls, clock.epoch, clock.minted);
    for n := 0 to |calls|
      invariant clock.Valid() && fresh(clock) && |ids| == |parts| == n && clock.log == Whole(parts)
      invariant IdsOk(calls, n, ids, clock.spans, clock.epoch, clock.minted)
      invariant forall m :: 0 <= m < n ==> Tells(calls[m], ids[m], Depth(calls, m, calls[m].t), parts[m])
    {
      ghost var spans, epoch, minted := clock.spans, clock.epoch, clock.minted;
      SpansOpen(calls, n, ids, spans, epoch, minted);
      ghost var id, part := Perform(clock, calls[n]);
      CallMore(calls, n, ids, spans, epoch, minted, clock.spans, clock.epoch, clock.minted, id);
      WholeMore(parts, part);
      ids, parts := ids + [id], parts + [part];
    }
    assert calls[..|calls|] == calls;
    AllIds(calls, ids, clock.spans, clock.epoch, clock.minted);
    log := clock.log;
  }

  lemma AllIds(calls: seq<Call>, ids: seq<nat>, spans: map<Thread, Span>, epoch: nat, minted: map<nat, nat>)
    requires IdsOk(calls, |calls|, ids, spans, epoch, minted)
    ensures |ids| == |calls|
    ensures forall i, j :: 0 <= i < j < |calls| && calls[i].Read? && calls[j].Read? ==>
      (ids[i] == ids[j] <==> OneRequest(calls, i, j))
  {}

  lemma SpansOpen(calls: seq<Call>, n: nat, ids: seq<nat>, spans: map<Thread, Span>, epoch: nat, minted: map<nat, nat>)
    requires n <= |calls| && IdsOk(calls, n, ids, spans, epoch, minted)
    ensures forall t :: t in spans <==> Depth(calls, n, t) > 0
    ensures forall t :: t in spans ==> spans[t].depth == Depth(calls, n, t)
  {}

  lemma OthersSame(spans: map<Thread, Span>, t: Thread, minted: map<nat, nat>)
    ensures Others(spans, spans, t) && Grown(minted, minted)
  {}

  lemma NothingTold(calls: seq<Call>, epoch: nat, minted: map<nat, nat>)
    ensures Whole([]) == [] && IdsOk(calls, 0, [], map[], epoch, minted)
  {}

  /** So a node met twice in one request is answered from its record the second time, unless its record was dropped
      or another request checked the node in between. */
  lemma MetAgain(log: seq<Event>, i: nat, j: nat, k: Key, id: nat)
    requires LogOk(log) && i < j < |log| && Visited(log[i], k, id) && Visited(log[j], k, id)
    requires forall m :: i < m < j ==> Stays(log[m], k, id)
    ensures log[j] == Reused(k, id)
  {
    assert OnceAt(log, j) && OnceAt(log, i);
    HolderStays(log, i, j, k, id);
  }

  ghost predicate Stays(e: Event, k: Key, id: nat) {
    (e.Dropped? ==> e.key != k) && (e.Checked? && e.key == k ==> e.id == id)
  }

  lemma {:induction false} HolderStays(log: seq<Event>, i: nat, j: nat, k: Key, id: nat)
    requires i < j <= |log| && OnceAt(log, i) && Visited(log[i], k, id)
    requires forall m :: i < m < j ==> Stays(log[m], k, id)
    ensures Holder(log[..j], k) == Some(id)
    decreases j
  {
    assert log[..j][..j - 1] == log[..j - 1];
    if j > i + 1 { HolderStays(log, i, j - 1, k, id); }
  }
}
