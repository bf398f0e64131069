/**
 * Dispatch: what `stream.next(v)` and `stream.error(e)` do to the world, as
 * functions. Each walks the listener array present when the call begins, in
 * order, and follows every forwarding record into the stream it feeds.
 * Forwarding only goes to younger streams (`Wired`), so the recursion ends.
 */
module Dispatch {
  import opened Events
  import opened Listeners
  import opened Worlds

  /** `s.next(v)`: every record attached when the call begins receives `v`, in order. */
  function DeliverNext(w: World, s: StreamId, v: Value): (r: World)
    requires Wired(w) && IsStream(w, s)
    ensures Wired(r) && Evolves(w, r, s)
    ensures ObservedFrom(w, r, Rids(w))
    decreases w.lastId - s, 1, |w.listeners[s - 1]| + 1
  {
    RidSetInRids(w, s - 1);
    NextEach(w, s, w.listeners[s - 1], v)
  }

  /**
   * The pass of `next` over a snapshot: each record's `next` handler in
   * order; a fault a handler throws goes to this stream's `error` (index.js:12-18).
   */
  function NextEach(w: World, s: StreamId, ls: seq<Listener>, v: Value): (r: World)
    requires Wired(w) && IsStream(w, s) && AllWired(ls, s, w.lastId, |w.promises|)
    ensures Wired(r) && Evolves(w, r, s)
    ensures ObservedFrom(w, r, Rids(w) + RidSet(ls))
    decreases w.lastId - s, 1, |ls|
  {
    if |ls| == 0 then
      EvolvesRefl(w, s);
      w
    else
      var w1 := NextOne(w, s, ls[0], v);
      var r := NextEach(w1, s, ls[1..], v);
      EvolvesTrans(w, w1, r, s);
      EvolvesRids(w, w1, s);
      RidSetSplit(ls);
      ObservedFromTrans(w, w1, r, Rids(w) + {ls[0].rid}, Rids(w1) + RidSet(ls[1..]));
      r
  }

  /** One record's `next` handler, with what its `catch` does if it throws. */
  function NextOne(w: World, s: StreamId, l: Listener, v: Value): (r: World)
    requires Wired(w) && IsStream(w, s) && WiredListener(l, s, w.lastId, |w.promises|)
    ensures Wired(r) && Evolves(w, r, s)
    ensures ObservedFrom(w, r, Rids(w) + {l.rid})
    decreases w.lastId - s, 1, 0
  {
    EvolvesRefl(w, s);
    match l.next
    case Ignore => w
    case Record(throws) =>
      var w1 := w.(observed := w.observed + [Saw(l.rid, Next(v))]);
      assert Rids(w1) == Rids(w);
      (match throws(v)
       case None => w1
       case Some(e) =>
         // the consumer threw: the fault goes to this stream's `error` (index.js:15-16)
         var r := DeliverError(w1, s, e);
         EvolvesTrans(w, w1, r, s);
         r)
    case Forward(t) => DeliverNext(w, t, v)
    case Test(pred, t) =>
      (match pred(v)
       case Ok(keep) => if keep then DeliverNext(w, t, v) else w
       case Threw(e) => DeliverError(w, t, e))
    case Apply(f, t) =>
      (match f(v)
       case Ok(u) => DeliverNext(w, t, u)
       case Threw(e) => DeliverError(w, t, e))
    case Resolve(p) =>
      // settle the promise, then remove this record (index.js:56-59)
      var w1 := w.(promises := Settle(w.promises, p, Resolved(v)));
      var r := Unsubscribed(w1, s, l.rid);
      UnsubscribedEvolves(w1, s, l.rid);
      EvolvesTrans(w, w1, r, s);
      EvolvesWired(w, r, s);
      r
  }

  /**
   * `s.error(e)`: with no records attached the fault is queued to be raised;
   * otherwise every attached record's `error` handler receives it, in order.
   */
  function DeliverError(w: World, s: StreamId, e: Fault): (r: World)
    requires Wired(w) && IsStream(w, s)
    ensures Wired(r) && Evolves(w, r, s)
    ensures ObservedFrom(w, r, Rids(w))
    decreases w.lastId - s, 0, |w.listeners[s - 1]| + 1
  {
    EvolvesRefl(w, s);
    if |w.listeners[s - 1]| == 0 then
      w.(raises := w.raises + [e])
    else
      RidSetInRids(w, s - 1);
      ErrorEach(w, s, w.listeners[s - 1], e)
  }

  /**
   * The pass of `error` over a snapshot: each record's `error` handler in
   * order; a fault a handler throws is queued to be raised (index.js:25-32).
   */
  function ErrorEach(w: World, s: StreamId, ls: seq<Listener>, e: Fault): (r: World)
    requires Wired(w) && IsStream(w, s) && AllWired(ls, s, w.lastId, |w.promises|)
    ensures Wired(r) && Evolves(w, r, s)
    ensures ObservedFrom(w, r, Rids(w) + RidSet(ls))
    decreases w.lastId - s, 0, |ls|
  {
    if |ls| == 0 then
      EvolvesRefl(w, s);
      w
    else
      var w1 := ErrorOne(w, s, ls[0], e);
      var r := ErrorEach(w1, s, ls[1..], e);
      EvolvesTrans(w, w1, r, s);
      EvolvesRids(w, w1, s);
      RidSetSplit(ls);
      ObservedFromTrans(w, w1, r, Rids(w) + {ls[0].rid}, Rids(w1) + RidSet(ls[1..]));
      r
  }

  /** One record's `error` handler; a fault it throws is queued, never fed back into a stream. */
  function ErrorOne(w: World, s: StreamId, l: Listener, e: Fault): (r: World)
    requires Wired(w) && IsStream(w, s) && WiredListener(l, s, w.lastId, |w.promises|)
    ensures Wired(r) && Evolves(w, r, s)
    ensures ObservedFrom(w, r, Rids(w) + {l.rid})
    decreases w.lastId - s, 0, 0
  {
    EvolvesRefl(w, s);
    match l.error
    case Rethrow => w.(raises := w.raises + [e])
    case RecordError(throws) =>
      var w1 := w.(observed := w.observed + [Saw(l.rid, Error(e))]);
      (match throws(e)
       case None => w1
       case Some(f) => w1.(raises := w1.raises + [f]))
    case ForwardError(t) => DeliverError(w, t, e)
    case Reject(p) =>
      // settle the promise with the fault, then remove this record (index.js:60-63)
      var w1 := w.(promises := Settle(w.promises, p, Rejected(e)));
      var r := Unsubscribed(w1, s, l.rid);
      UnsubscribedEvolves(w1, s, l.rid);
      EvolvesTrans(w, w1, r, s);
      EvolvesWired(w, r, s);
      r
  }

  /** One call on stream `s`. */
  function Deliver(w: World, s: StreamId, ev: Event): (r: World)
    requires Wired(w) && IsStream(w, s)
    ensures Wired(r) && Evolves(w, r, s)
    ensures ObservedFrom(w, r, Rids(w))
  {
    match ev
    case Next(v) => DeliverNext(w, s, v)
    case Error(e) => DeliverError(w, s, e)
  }

  /** A sequence of calls on stream `s`, in order. */
  function Emit(w: World, s: StreamId, evs: seq<Event>): (r: World)
    requires Wired(w) && IsStream(w, s)
    ensures Wired(r) && Evolves(w, r, s)
    ensures ObservedFrom(w, r, Rids(w))
    decreases |evs|
  {
    if |evs| == 0 then
      EvolvesRefl(w, s);
      w
    else
      var w1 := Deliver(w, s, evs[0]);
      var r := Emit(w1, s, evs[1..]);
      EvolvesTrans(w, w1, r, s);
      EvolvesRids(w, w1, s);
      ObservedFromTrans(w, w1, r, Rids(w), Rids(w1));
      r
  }

  /** A sequence of calls, each on its own stream, in order. */
  function EmitAcross(w: World, calls: seq<(StreamId, Event)>): (r: World)
    requires Wired(w) && forall i :: 0 <= i < |calls| ==> IsStream(w, calls[i].0)
    ensures Wired(r) && Evolves(w, r, 0)
    decreases |calls|
  {
    if |calls| == 0 then
      EvolvesRefl(w, 0);
      w
    else
      var w1 := Deliver(w, calls[0].0, calls[0].1);
      assert forall i :: 0 <= i < |calls[1..]| ==> IsStream(w1, calls[1..][i].0) by {
        assert forall i :: 1 <= i < |calls| ==> IsStream(w, calls[i].0);
      }
      var r := EmitAcross(w1, calls[1..]);
      EvolvesTrans(w, w1, r, 0);
      r
  }

  lemma RidSetSplit(ls: seq<Listener>)
    requires |ls| > 0
    ensures RidSet(ls) == {ls[0].rid} + RidSet(ls[1..])
  {
    forall x | x in RidSet(ls) ensures x in {ls[0].rid} + RidSet(ls[1..]) {
      var i :| 0 <= i < |ls| && ls[i].rid == x;
      if i > 0 {
        assert ls[1..][i - 1].rid == x;
      }
    }
    forall x | x in RidSet(ls[1..]) ensures x in RidSet(ls) {
      var i :| 0 <= i < |ls[1..]| && ls[1..][i].rid == x;
      assert ls[i + 1].rid == x;
    }
  }

  /** One step of the pass in `next`: the first record, then the rest from the state it leaves. */
  lemma NextEachUnfold(w: World, s: StreamId, ls: seq<Listener>, v: Value)
    requires Wired(w) && IsStream(w, s) && AllWired(ls, s, w.lastId, |w.promises|) && |ls| > 0
    ensures var w1 := NextOne(w, s, ls[0], v);
      w1.lastId == w.lastId && |w1.promises| == |w.promises| &&
      AllWired(ls[1..], s, w1.lastId, |w1.promises|) &&
      NextEach(w, s, ls, v) == NextEach(w1, s, ls[1..], v)
  {
  }

  /** One step of the pass in `error`. */
  lemma ErrorEachUnfold(w: World, s: StreamId, ls: seq<Listener>, e: Fault)
    requires Wired(w) && IsStream(w, s) && AllWired(ls, s, w.lastId, |w.promises|) && |ls| > 0
    ensures var w1 := ErrorOne(w, s, ls[0], e);
      w1.lastId == w.lastId && |w1.promises| == |w.promises| &&
      AllWired(ls[1..], s, w1.lastId, |w1.promises|) &&
      ErrorEach(w, s, ls, e) == ErrorEach(w1, s, ls[1..], e)
  {
  }

  /** One step of a sequence of calls. */
  lemma EmitUnfold(w: World, s: StreamId, evs: seq<Event>)
    requires Wired(w) && IsStream(w, s) && |evs| > 0
    ensures Emit(w, s, evs) == Emit(Deliver(w, s, evs[0]), s, evs[1..])
  {
  }

  /** A stream without records ignores values and queues every error once. */
  lemma DeliverToNone(w: World, s: StreamId, ev: Event)
    requires Wired(w) && IsStream(w, s) && w.listeners[s - 1] == []
    ensures Deliver(w, s, ev) == w.(raises := w.raises + Faults([ev]))
  {
    assert Faults([ev]) == (if ev.Error? then [ev.fault] else []) + Faults([ev][1..]);
    assert [ev][1..] == [];
    if ev.Next? {
      assert NextEach(w, s, [], ev.value) == w;
      assert DeliverNext(w, s, ev.value) == w;
      assert w.(raises := w.raises + []) == w;
    }
  }

  /** A stream with a single record hands each call to that record. */
  lemma DeliverToOne(w: World, s: StreamId, l: Listener, ev: Event)
    requires Wired(w) && IsStream(w, s) && w.listeners[s - 1] == [l]
    ensures WiredListener(l, s, w.lastId, |w.promises|)
    ensures ev.Next? ==> Deliver(w, s, ev) == NextOne(w, s, l, ev.value)
    ensures ev.Error? ==> Deliver(w, s, ev) == ErrorOne(w, s, l, ev.fault)
  {
    assert AllWired(w.listeners[s - 1], s, w.lastId, |w.promises|);
    assert WiredListener(w.listeners[s - 1][0], s, w.lastId, |w.promises|);
    assert [l][1..] == [];
    if ev.Next? {
      NextEachUnfold(w, s, [l], ev.value);
    } else {
      ErrorEachUnfold(w, s, [l], ev.fault);
    }
  }
}
