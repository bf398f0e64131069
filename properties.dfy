/**
 * What the dispatch functions promise end to end: consumers see every call
 * in order and faults are rerouted to the error path; an unsubscribed record
 * is never called again; `filter`, `map` and `merge` feed their stream
 * exactly the reference trace of `Events`; `asPromise` settles on the first
 * qualifying value or the first error.
 */
module Properties {
  import opened Events
  import opened Listeners
  import opened Worlds
  import opened Dispatch
  import opened Streams

  /** Calls on one stream compose: `a` then `b` is `a + b`. */
  lemma {:induction false} EmitAppend(w: World, s: StreamId, a: seq<Event>, b: seq<Event>)
    requires Wired(w) && IsStream(w, s)
    ensures Emit(w, s, a + b) == Emit(Emit(w, s, a), s, b)
    decreases |a|
  {
    if |a| == 0 {
      assert a + b == b;
    } else {
      assert (a + b)[0] == a[0] && (a + b)[1..] == a[1..] + b;
      EmitAppend(Deliver(w, s, a[0]), s, a[1..], b);
    }
  }

  lemma EmitSingle(w: World, s: StreamId, ev: Event)
    requires Wired(w) && IsStream(w, s)
    ensures Emit(w, s, [ev]) == Deliver(w, s, ev)
  {
    assert [ev][1..] == [];
  }

  // ----- consumers: records made by `subscribe` with the user's callbacks -----

  /** A record holding only consumer callbacks or the defaults of `subscribe`. */
  predicate Sink(l: Listener)
  {
    (l.next.Ignore? || l.next.Record?) && (l.error.Rethrow? || l.error.RecordError?)
  }

  ghost predicate AllSinks(ls: seq<Listener>)
  {
    forall i :: 0 <= i < |ls| ==> Sink(ls[i])
  }

  /** What a consumer record sees of `error(e)`: the fault, if it has a handler of its own. */
  function ErrorSeen(l: Listener, e: Fault): seq<Observation>
  {
    if l.error.RecordError? then [Saw(l.rid, Error(e))] else []
  }

  /** What gets queued: `e` itself by the default handler, and whatever a consumer's handler throws. */
  function ErrorThrown(l: Listener, e: Fault): seq<Fault>
  {
    match l.error
    case Rethrow => [e]
    case RecordError(throws) => (match throws(e) case Some(f) => [f] case None => [])
    case _ => []
  }

  /** What the consumers of `ls` see when `error(e)` reaches them, in order. */
  function ErrorObs(ls: seq<Listener>, e: Fault): seq<Observation>
  {
    if |ls| == 0 then [] else ErrorSeen(ls[0], e) + ErrorObs(ls[1..], e)
  }

  function ErrorRaises(ls: seq<Listener>, e: Fault): seq<Fault>
  {
    if |ls| == 0 then [] else ErrorThrown(ls[0], e) + ErrorRaises(ls[1..], e)
  }

  /** With no listeners at all, the fault itself is queued once. */
  function ErrorQueue(ls: seq<Listener>, e: Fault): seq<Fault>
  {
    if |ls| == 0 then [e] else ErrorRaises(ls, e)
  }

  /**
   * What `next(v)` makes the consumers see through record `l` of a stream
   * whose records are `all`: `l` sees `v`, and when it throws, every record
   * of the stream sees the thrown fault.
   */
  function NextSeen(l: Listener, all: seq<Listener>, v: Value): seq<Observation>
  {
    match l.next
    case Record(throws) =>
      [Saw(l.rid, Next(v))] + (match throws(v) case Some(e) => ErrorObs(all, e) case None => [])
    case _ => []
  }

  function NextThrown(l: Listener, all: seq<Listener>, v: Value): seq<Fault>
  {
    match l.next
    case Record(throws) => (match throws(v) case Some(e) => ErrorQueue(all, e) case None => [])
    case _ => []
  }

  function NextObs(each: seq<Listener>, all: seq<Listener>, v: Value): seq<Observation>
  {
    if |each| == 0 then [] else NextSeen(each[0], all, v) + NextObs(each[1..], all, v)
  }

  function NextRaises(each: seq<Listener>, all: seq<Listener>, v: Value): seq<Fault>
  {
    if |each| == 0 then [] else NextThrown(each[0], all, v) + NextRaises(each[1..], all, v)
  }

  lemma SinksWired(ls: seq<Listener>, s: StreamId, lastId: nat, promises: nat)
    requires AllSinks(ls)
    ensures AllWired(ls, s, lastId, promises)
  {
    forall i | 0 <= i < |ls| ensures WiredListener(ls[i], s, lastId, promises) {
      assert Sink(ls[i]);
    }
  }

  lemma ErrorOneSink(w: World, s: StreamId, l: Listener, e: Fault)
    requires Wired(w) && IsStream(w, s) && Sink(l)
    ensures WiredListener(l, s, w.lastId, |w.promises|)
    ensures ErrorOne(w, s, l, e) ==
      w.(observed := w.observed + ErrorSeen(l, e), raises := w.raises + ErrorThrown(l, e))
  {
    if l.error.Rethrow? {
      assert w.(observed := w.observed + []) == w;
    } else if l.error.throws(e).None? {
      assert w.(raises := w.raises + []) == w;
    }
  }

  lemma {:induction false} ErrorEachSinks(w: World, s: StreamId, ls: seq<Listener>, e: Fault)
    requires Wired(w) && IsStream(w, s) && AllSinks(ls)
    ensures AllWired(ls, s, w.lastId, |w.promises|)
    ensures ErrorEach(w, s, ls, e) ==
      w.(observed := w.observed + ErrorObs(ls, e), raises := w.raises + ErrorRaises(ls, e))
    decreases |ls|
  {
    SinksWired(ls, s, w.lastId, |w.promises|);
    if |ls| == 0 {
      assert w.(observed := w.observed + [], raises := w.raises + []) == w;
    } else {
      var w1 := ErrorOne(w, s, ls[0], e);
      assert w1 == w.(observed := w.observed + ErrorSeen(ls[0], e), raises := w.raises + ErrorThrown(ls[0], e)) by {
        assert Sink(ls[0]);
        ErrorOneSink(w, s, ls[0], e);
      }
      ErrorEachUnfold(w, s, ls, e);
      ErrorEachSinks(w1, s, ls[1..], e);
      Grow(w, ErrorSeen(ls[0], e), ErrorThrown(ls[0], e), ErrorObs(ls[1..], e), ErrorRaises(ls[1..], e));
    }
  }

  /**
   * `error(e)` on a stream whose records are all consumers: each recording
   * handler sees `e` in order; with no records `e` is queued to be raised
   * once; a default handler rethrows, and a throwing handler's fault is
   * queued, never fed back into a stream.
   */
  lemma ErrorReachesEveryListener(w: World, s: StreamId, e: Fault)
    requires Wired(w) && IsStream(w, s) && AllSinks(w.listeners[s - 1])
    ensures DeliverError(w, s, e) ==
      w.(observed := w.observed + ErrorObs(w.listeners[s - 1], e),
         raises := w.raises + ErrorQueue(w.listeners[s - 1], e))
  {
    if |w.listeners[s - 1]| == 0 {
      assert w.(observed := w.observed + []) == w;
    } else {
      ErrorEachSinks(w, s, w.listeners[s - 1], e);
    }
  }

  lemma NextOneSink(w: World, s: StreamId, l: Listener, v: Value)
    requires Wired(w) && IsStream(w, s) && AllSinks(w.listeners[s - 1]) && Sink(l)
    ensures WiredListener(l, s, w.lastId, |w.promises|)
    ensures NextOne(w, s, l, v) ==
      w.(observed := w.observed + NextSeen(l, w.listeners[s - 1], v),
         raises := w.raises + NextThrown(l, w.listeners[s - 1], v))
  {
    if l.next.Ignore? {
      assert w.(observed := w.observed + [], raises := w.raises + []) == w;
    } else {
      var all := w.listeners[s - 1];
      var seen := w.(observed := w.observed + [Saw(l.rid, Next(v))]);
      match l.next.throws(v)
      case None =>
        assert seen.(raises := w.raises + []) == seen;
      case Some(e) =>
        assert DeliverError(seen, s, e) ==
          seen.(observed := seen.observed + ErrorObs(all, e), raises := seen.raises + ErrorQueue(all, e)) by {
          ErrorReachesEveryListener(seen, s, e);
        }
        assert seen.observed + ErrorObs(all, e) == w.observed + ([Saw(l.rid, Next(v))] + ErrorObs(all, e));
    }
  }

  lemma {:induction false} NextEachSinks(w: World, s: StreamId, each: seq<Listener>, v: Value)
    requires Wired(w) && IsStream(w, s) && AllSinks(w.listeners[s - 1]) && AllSinks(each)
    ensures AllWired(each, s, w.lastId, |w.promises|)
    ensures NextEach(w, s, each, v) ==
      w.(observed := w.observed + NextObs(each, w.listeners[s - 1], v),
         raises := w.raises + NextRaises(each, w.listeners[s - 1], v))
    decreases |each|
  {
    SinksWired(each, s, w.lastId, |w.promises|);
    var all := w.listeners[s - 1];
    if |each| == 0 {
      assert w.(observed := w.observed + [], raises := w.raises + []) == w;
    } else {
      var w1 := NextOne(w, s, each[0], v);
      assert w1 == w.(observed := w.observed + NextSeen(each[0], all, v), raises := w.raises + NextThrown(each[0], all, v)) by {
        assert Sink(each[0]);
        NextOneSink(w, s, each[0], v);
      }
      NextEachUnfold(w, s, each, v);
      NextEachSinks(w1, s, each[1..], v);
      Grow(w, NextSeen(each[0], all, v), NextThrown(each[0], all, v), NextObs(each[1..], all, v), NextRaises(each[1..], all, v));
    }
  }

  /**
   * `next(v)` on a stream whose records are all consumers: every record
   * present when the call begins sees `v`, in list order; when a consumer
   * throws, the stream's own `error` runs with the fault, and delivery of `v`
   * continues with the next record. Nothing escapes to the caller.
   */
  lemma NextReachesEveryListener(w: World, s: StreamId, v: Value)
    requires Wired(w) && IsStream(w, s) && AllSinks(w.listeners[s - 1])
    ensures DeliverNext(w, s, v) ==
      w.(observed := w.observed + NextObs(w.listeners[s - 1], w.listeners[s - 1], v),
         raises := w.raises + NextRaises(w.listeners[s - 1], w.listeners[s - 1], v))
  {
    NextEachSinks(w, s, w.listeners[s - 1], v);
  }

  /** A callback that never throws. */
  ghost predicate NeverThrows(throws: Value -> Option<Fault>)
  {
    forall v :: throws(v).None?
  }

  /** The observations of record `rid` seeing each of `vs`, in order. */
  function Seen(rid: nat, vs: seq<Value>): seq<Observation>
  {
    if |vs| == 0 then [] else [Saw(rid, Next(vs[0]))] + Seen(rid, vs[1..])
  }

  /** `Seen(rid, vs)` is one observation per value of `vs`, by record `rid`, in the order of `vs`. */
  lemma {:induction false} SeenInOrder(rid: nat, vs: seq<Value>)
    ensures |Seen(rid, vs)| == |vs|
    ensures forall i :: 0 <= i < |vs| ==> Seen(rid, vs)[i] == Saw(rid, Next(vs[i]))
  {
    if |vs| > 0 {
      SeenInOrder(rid, vs[1..]);
      assert forall i :: 1 <= i < |vs| ==> Seen(rid, vs)[i] == Seen(rid, vs[1..])[i - 1];
    }
  }

  /**
   * A subscriber alone on its stream whose callback never throws: the calls
   * `next(v)` for each `v` of `vs` only add its observations of the values,
   * in call order, and queue nothing.
   */
  lemma {:induction false} QuietSubscriber(w: World, s: StreamId, l: Listener, vs: seq<Value>)
    requires Wired(w) && IsStream(w, s) && w.listeners[s - 1] == [l]
    requires l.next.Record? && NeverThrows(l.next.throws) && Sink(l)
    ensures Emit(w, s, Nexts(vs)) == w.(observed := w.observed + Seen(l.rid, vs))
    decreases |vs|
  {
    if |vs| > 0 {
      var w1 := w.(observed := w.observed + [Saw(l.rid, Next(vs[0]))]);
      assert Wired(w1) && Emit(w, s, Nexts(vs)) == Emit(w1, s, Nexts(vs[1..])) by {
        SubscriberStep(w, s, l, vs);
      }
      assert Emit(w1, s, Nexts(vs[1..])) == w1.(observed := w1.observed + Seen(l.rid, vs[1..])) by {
        QuietSubscriber(w1, s, l, vs[1..]);
      }
      assert w1.observed + Seen(l.rid, vs[1..]) == w.observed + Seen(l.rid, vs);
    } else {
      assert w.(observed := w.observed + []) == w;
    }
  }

  lemma SubscriberStep(w: World, s: StreamId, l: Listener, vs: seq<Value>)
    requires Wired(w) && IsStream(w, s) && w.listeners[s - 1] == [l] && |vs| > 0
    requires l.next.Record? && NeverThrows(l.next.throws) && Sink(l)
    ensures var w1 := w.(observed := w.observed + [Saw(l.rid, Next(vs[0]))]);
      Wired(w1) && Emit(w, s, Nexts(vs)) == Emit(w1, s, Nexts(vs[1..]))
  {
    var saw := [Saw(l.rid, Next(vs[0]))];
    var w1 := w.(observed := w.observed + saw);
    assert DeliverNext(w, s, vs[0]) == w1 by {
      NextReachesEveryListener(w, s, vs[0]);
      assert NextObs([l], [l], vs[0]) == saw + [];
      assert NextRaises([l], [l], vs[0]) == [] + [];
      assert w.raises + [] == w.raises;
    }
    EmitUnfold(w, s, Nexts(vs));
    assert Nexts(vs)[1..] == Nexts(vs[1..]);
  }

  /** What the consumers `ls` of a stream see over the calls `next(v)`, one per value of `vs`. */
  function Broadcast(ls: seq<Listener>, vs: seq<Value>): seq<Observation>
  {
    if |vs| == 0 then [] else NextObs(ls, ls, vs[0]) + Broadcast(ls, vs[1..])
  }

  /** What those calls queue to be raised. */
  function BroadcastRaises(ls: seq<Listener>, vs: seq<Value>): seq<Fault>
  {
    if |vs| == 0 then [] else NextRaises(ls, ls, vs[0]) + BroadcastRaises(ls, vs[1..])
  }

  /**
   * The calls `next(v)` for each `v` of `vs` on a stream of consumers, any
   * of which may throw: the records stay as they are, and only the logs grow.
   */
  lemma {:induction false} ConsumersSeeEveryCall(w: World, s: StreamId, vs: seq<Value>)
    requires Wired(w) && IsStream(w, s) && AllSinks(w.listeners[s - 1])
    ensures Emit(w, s, Nexts(vs)) ==
      w.(observed := w.observed + Broadcast(w.listeners[s - 1], vs),
         raises := w.raises + BroadcastRaises(w.listeners[s - 1], vs))
    decreases |vs|
  {
    var ls := w.listeners[s - 1];
    if |vs| == 0 {
      assert w.(observed := w.observed + [], raises := w.raises + []) == w;
    } else {
      var o1, f1 := NextObs(ls, ls, vs[0]), NextRaises(ls, ls, vs[0]);
      var w1 := w.(observed := w.observed + o1, raises := w.raises + f1);
      LogsIrrelevant(w, w1.observed, w1.raises);
      assert Emit(w, s, Nexts(vs)) == Emit(w1, s, Nexts(vs[1..])) by {
        NextReachesEveryListener(w, s, vs[0]);
        EmitUnfold(w, s, Nexts(vs));
        assert Nexts(vs)[1..] == Nexts(vs[1..]);
      }
      ConsumersSeeEveryCall(w1, s, vs[1..]);
      Grow(w, o1, f1, Broadcast(ls, vs[1..]), BroadcastRaises(ls, vs[1..]));
    }
  }

  // ----- unsubscribe -----

  /**
   * The unsubscribe closure of the record at position `i` removes exactly
   * that record, keeps the others of the stream in order, leaves other
   * streams alone, and calling it again changes nothing.
   */
  lemma UnsubscribeRemovesItsRecord(w: World, s: StreamId, i: nat)
    requires Wired(w) && Identified(w) && IsStream(w, s) && i < |w.listeners[s - 1]|
    ensures var ls := w.listeners[s - 1];
      var r := Unsubscribed(w, s, ls[i].rid);
      r.listeners[s - 1] == ls[..i] + ls[i + 1..] &&
      (forall k :: 0 <= k < |w.listeners| && k != s - 1 ==> r.listeners[k] == w.listeners[k]) &&
      Unsubscribed(r, s, ls[i].rid) == r
  {
    var ls := w.listeners[s - 1];
    RemoveExactlyOne(ls, i);
    RemoveIdempotent(ls, ls[i].rid);
    var r := Unsubscribed(w, s, ls[i].rid);
    assert r.listeners[s - 1 := Remove(r.listeners[s - 1], ls[i].rid)] == r.listeners;
  }

  /** After its unsubscribe closure runs, a record is never called again, whatever is emitted where. */
  lemma UnsubscribedNeverCalled(w: World, s: StreamId, i: nat, t: StreamId, evs: seq<Event>)
    requires Wired(w) && Identified(w) && IsStream(w, s) && IsStream(w, t) && i < |w.listeners[s - 1]|
    ensures var rid := w.listeners[s - 1][i].rid;
      var u := Unsubscribed(w, s, rid);
      Wired(u) &&
      forall j :: |u.observed| <= j < |Emit(u, t, evs).observed| ==> Emit(u, t, evs).observed[j].rid != rid
  {
    var rid := w.listeners[s - 1][i].rid;
    var u := Unsubscribed(w, s, rid);
    UnsubscribedEvolves(w, s, rid);
    EvolvesWired(w, u, s);
    RemoveGone(w.listeners[s - 1], rid);
    assert rid in RidSet(w.listeners[s - 1]);
    forall k, j | 0 <= k < |u.listeners| && 0 <= j < |u.listeners[k]| ensures u.listeners[k][j].rid != rid {
      if k != s - 1 {
        assert u.listeners[k][j].rid in RidSet(w.listeners[k]);
        if k < s - 1 {
          assert RidSet(w.listeners[k]) !! RidSet(w.listeners[s - 1]);
        } else {
          assert RidSet(w.listeners[s - 1]) !! RidSet(w.listeners[k]);
        }
      } else {
        assert u.listeners[k][j].rid in RidSet(Remove(w.listeners[s - 1], rid));
      }
    }
    assert rid !in Rids(u);
  }

  // ----- operators: one record relaying a source into a younger stream -----

  /** The forwarding records the operators install. */
  predicate Relaying(l: Listener, t: StreamId)
  {
    (l.next.Forward? || l.next.Test? || l.next.Apply?) && l.next.target == t && l.error == ForwardError(t)
  }

  /** What the target is fed for the calls `evs` on the source. */
  function RelayAll(n: NextAction, evs: seq<Event>): seq<Event>
    requires n.Forward? || n.Test? || n.Apply?
  {
    match n
    case Forward(_) => evs
    case Test(pred, _) => FilterEvents(pred, evs)
    case Apply(f, _) => MapEvents(f, evs)
  }

  lemma RelaySingle(n: NextAction, ev: Event)
    requires n.Forward? || n.Test? || n.Apply?
    ensures n.Forward? ==> RelayAll(n, [ev]) == [ev]
    ensures n.Test? ==> RelayAll(n, [ev]) == FilterEvent(n.pred, ev)
    ensures n.Apply? ==> RelayAll(n, [ev]) == MapEvent(n.f, ev)
  {
    assert [ev][1..] == [];
    if n.Test? {
      assert FilterEvents(n.pred, [ev]) == FilterEvent(n.pred, ev) + FilterEvents(n.pred, []);
      assert FilterEvent(n.pred, ev) + [] == FilterEvent(n.pred, ev);
    } else if n.Apply? {
      assert MapEvents(n.f, [ev]) == MapEvent(n.f, ev) + MapEvents(n.f, []);
      assert MapEvent(n.f, ev) + [] == MapEvent(n.f, ev);
    }
  }

  lemma RelayOne(w: World, s: StreamId, l: Listener, t: StreamId, ev: Event)
    requires Wired(w) && IsStream(w, s) && w.listeners[s - 1] == [l] && Relaying(l, t)
    ensures IsStream(w, t)
    ensures Deliver(w, s, ev) == Emit(w, t, RelayAll(l.next, [ev]))
  {
    DeliverToOne(w, s, l, ev);
    RelaySingle(l.next, ev);
    match ev
    case Next(v) =>
      match l.next {
      case Forward(_) =>
        EmitSingle(w, t, ev);
      case Test(pred, _) =>
        match pred(v) {
          case Ok(keep) =>
            if keep {
              EmitSingle(w, t, ev);
            }
          case Threw(e) =>
            EmitSingle(w, t, Error(e));
        }
      case Apply(f, _) =>
        match f(v) {
          case Ok(u) =>
            EmitSingle(w, t, Next(u));
          case Threw(e) =>
            EmitSingle(w, t, Error(e));
        }
      }
    case Error(e) =>
      EmitSingle(w, t, ev);
  }

  /**
   * A stream whose only record relays into `t` passes every call on to `t`
   * as the reference trace says, and keeps that one record.
   */
  lemma {:induction false} RelayedEmit(w: World, s: StreamId, l: Listener, t: StreamId, evs: seq<Event>)
    requires Wired(w) && IsStream(w, s) && w.listeners[s - 1] == [l] && Relaying(l, t)
    ensures IsStream(w, t) && s < t
    ensures Emit(w, s, evs) == Emit(w, t, RelayAll(l.next, evs))
    ensures Emit(w, s, evs).listeners[s - 1] == [l]
    decreases |evs|
  {
    DeliverToOne(w, s, l, Next(0));
    if |evs| > 0 {
      RelayStep(w, s, l, t, evs);
      var w1 := Emit(w, t, RelayAll(l.next, [evs[0]]));
      RelayedEmit(w1, s, l, t, evs[1..]);
      EmitAppend(w, t, RelayAll(l.next, [evs[0]]), RelayAll(l.next, evs[1..]));
    } else {
      assert RelayAll(l.next, evs) == [];
    }
  }

  /** The first call of `evs` relayed: the target has been fed, and the source still holds the record. */
  lemma RelayStep(w: World, s: StreamId, l: Listener, t: StreamId, evs: seq<Event>)
    requires Wired(w) && IsStream(w, s) && w.listeners[s - 1] == [l] && Relaying(l, t) && |evs| > 0
    ensures IsStream(w, t)
    ensures var w1 := Emit(w, t, RelayAll(l.next, [evs[0]]));
      w1.listeners[s - 1] == [l] &&
      Emit(w, s, evs) == Emit(w1, s, evs[1..]) &&
      RelayAll(l.next, evs) == RelayAll(l.next, [evs[0]]) + RelayAll(l.next, evs[1..])
  {
    DeliverToOne(w, s, l, evs[0]);
    EmitUnfold(w, s, evs);
    RelayOne(w, s, l, t, evs[0]);
    RelayKeepsSource(w, s, l, t, RelayAll(l.next, [evs[0]]));
    RelayAllSplit(l.next, evs);
  }

  lemma RelayKeepsSource(w: World, s: StreamId, l: Listener, t: StreamId, evs: seq<Event>)
    requires Wired(w) && IsStream(w, s) && IsStream(w, t) && s < t && w.listeners[s - 1] == [l]
    ensures Emit(w, t, evs).listeners[s - 1] == [l]
  {
    assert Evolves(w, Emit(w, t, evs), t);
  }

  lemma RelayAllSplit(n: NextAction, evs: seq<Event>)
    requires (n.Forward? || n.Test? || n.Apply?) && |evs| > 0
    ensures RelayAll(n, evs) == RelayAll(n, [evs[0]]) + RelayAll(n, evs[1..])
  {
    assert evs == [evs[0]] + evs[1..];
    if n.Test? {
      FilterEventsAppend(n.pred, [evs[0]], evs[1..]);
    } else if n.Apply? {
      MapEventsAppend(n.f, [evs[0]], evs[1..]);
    }
  }

  /**
   * `filter(pred)`: the filtered stream is fed exactly the source values for
   * which `pred` returns true, in order; a throwing `pred` feeds it the fault
   * as an error and no value; source errors pass unchanged.
   */
  lemma FilterForwards(w: World, s: StreamId, rid: nat, pred: Value -> Result<bool>, t: StreamId, evs: seq<Event>)
    requires Wired(w) && IsStream(w, s) && w.listeners[s - 1] == [Listener(rid, Test(pred, t), ForwardError(t))]
    ensures IsStream(w, t)
    ensures Emit(w, s, evs) == Emit(w, t, FilterEvents(pred, evs))
  {
    RelayedEmit(w, s, Listener(rid, Test(pred, t), ForwardError(t)), t, evs);
  }

  /**
   * `map(f)`: the mapped stream is fed `f(v)` for every source value, in
   * order; a throwing `f` feeds it the fault as an error; source errors pass unchanged.
   */
  lemma MapForwards(w: World, s: StreamId, rid: nat, f: Value -> Result<Value>, t: StreamId, evs: seq<Event>)
    requires Wired(w) && IsStream(w, s) && w.listeners[s - 1] == [Listener(rid, Apply(f, t), ForwardError(t))]
    ensures IsStream(w, t)
    ensures Emit(w, s, evs) == Emit(w, t, MapEvents(f, evs))
  {
    RelayedEmit(w, s, Listener(rid, Apply(f, t), ForwardError(t)), t, evs);
  }

  /** The events of a sequence of calls across streams. */
  function CallEvents(calls: seq<(StreamId, Event)>): (r: seq<Event>)
    ensures |r| == |calls| && forall i :: 0 <= i < |calls| ==> r[i] == calls[i].1
  {
    if |calls| == 0 then [] else [calls[0].1] + CallEvents(calls[1..])
  }

  /** Every source of `calls` has as its only record the one `merge` attached for `ret`. */
  ghost predicate MergedSources(w: World, ret: StreamId, calls: seq<(StreamId, Event)>)
  {
    forall i :: 0 <= i < |calls| ==>
      1 <= calls[i].0 < ret && calls[i].0 <= |w.listeners| &&
      |w.listeners[calls[i].0 - 1]| == 1 && MergeRecord(w.listeners[calls[i].0 - 1][0], ret)
  }

  /**
   * `merge`: values and errors emitted on the sources reach the merged
   * stream in the global order they were emitted, each source still
   * forwarding after another one errs.
   */
  lemma {:induction false} MergeInterleaves(w: World, ret: StreamId, calls: seq<(StreamId, Event)>)
    requires Wired(w) && IsStream(w, ret) && MergedSources(w, ret, calls)
    ensures forall i :: 0 <= i < |calls| ==> IsStream(w, calls[i].0)
    ensures EmitAcross(w, calls) == Emit(w, ret, CallEvents(calls))
    decreases |calls|
  {
    if |calls| > 0 {
      var (s, ev) := calls[0];
      var l := w.listeners[s - 1][0];
      assert w.listeners[s - 1] == [l];
      RelayOne(w, s, l, ret, ev);
      var w1 := Deliver(w, s, ev);
      assert MergedSources(w1, ret, calls[1..]) by {
        forall i | 0 <= i < |calls[1..]|
          ensures w1.listeners[calls[1..][i].0 - 1] == w.listeners[calls[1..][i].0 - 1]
        {
          assert MergedSources(w, ret, calls) && calls[1..][i] == calls[i + 1];
        }
      }
      MergeInterleaves(w1, ret, calls[1..]);
      assert CallEvents(calls) == [ev] + CallEvents(calls[1..]);
      EmitAppend(w, ret, [ev], CallEvents(calls[1..]));
    }
  }

  // ----- asPromise -----

  /** An orphaned stream (no records left) queues every error it receives and ignores values. */
  lemma {:induction false} EmitOrphan(w: World, t: StreamId, evs: seq<Event>)
    requires Wired(w) && IsStream(w, t) && w.listeners[t - 1] == []
    ensures Emit(w, t, evs) == w.(raises := w.raises + Faults(evs))
    decreases |evs|
  {
    if |evs| > 0 {
      var w1 := w.(raises := w.raises + Faults([evs[0]]));
      OrphanStep(w, t, evs);
      EmitOrphan(w1, t, evs[1..]);
      FaultsSplit(evs);
      assert w1.raises + Faults(evs[1..]) == w.raises + Faults(evs);
    } else {
      assert w.(raises := w.raises + []) == w;
    }
  }

  lemma OrphanStep(w: World, t: StreamId, evs: seq<Event>)
    requires Wired(w) && IsStream(w, t) && w.listeners[t - 1] == [] && |evs| > 0
    ensures var w1 := w.(raises := w.raises + Faults([evs[0]]));
      Wired(w1) && Emit(w, t, evs) == Emit(w1, t, evs[1..])
  {
    DeliverToNone(w, t, evs[0]);
    EmitUnfold(w, t, evs);
  }



  /**
   * The subscription of `asPromise` settles its promise with the first call
   * its stream receives and removes itself; the orphaned stream then queues
   * every later error to be raised.
   */
  lemma BridgeSettlesOnFirst(w: World, t: StreamId, rid: nat, p: nat, evs: seq<Event>)
    requires Wired(w) && IsStream(w, t) && p < |w.promises| && w.promises[p] == Pending
    requires w.listeners[t - 1] == [Listener(rid, Resolve(p), Reject(p))]
    ensures var r := Emit(w, t, evs);
      r.promises[p] == FirstOutcome(evs) &&
      r.listeners[t - 1] == (if |evs| == 0 then w.listeners[t - 1] else []) &&
      r.raises == w.raises + (if |evs| == 0 then [] else Faults(evs[1..])) &&
      r.observed == w.observed
  {
    if |evs| > 0 {
      var l := Listener(rid, Resolve(p), Reject(p));
      var w1 := Deliver(w, t, evs[0]);
      assert w1.listeners[t - 1] == [] && w1.promises[p] == FirstOutcome(evs) &&
             w1.raises == w.raises && w1.observed == w.observed by {
        DeliverToOne(w, t, l, evs[0]);
        assert Remove([l], rid) == [];
      }
      EmitUnfold(w, t, evs);
      EmitOrphan(w1, t, evs[1..]);
    }
  }

  lemma PendingAddedKeeps(w: World)
    requires Wired(w) && Identified(w)
    ensures Wired(w.(promises := w.promises + [Pending])) && Identified(w.(promises := w.promises + [Pending]))
  {
    var r := w.(promises := w.promises + [Pending]);
    forall k | 0 <= k < |r.listeners| ensures AllWired(r.listeners[k], k + 1, r.lastId, |r.promises|) {
      assert AllWired(w.listeners[k], k + 1, w.lastId, |w.promises|);
    }
  }

  /** `asPromise` keeps the invariants. */
  lemma BridgedKeeps(w: World, s: StreamId, check: Value -> Result<bool>)
    requires Wired(w) && Identified(w) && IsStream(w, s)
    ensures Wired(Bridged(w, s, check)) && Identified(Bridged(w, s, check))
  {
    var p := |w.promises|;
    var t := w.lastId + 1;
    var w1 := w.(promises := w.promises + [Pending]);
    PendingAddedKeeps(w);
    var w2 := Spawn(w1);
    assert Wired(w2) && Identified(w2) && IsStream(w2, s) && w2.lastId == t && |w2.promises| == p + 1 by {
      SpawnKeeps(w1);
    }
    var w3 := Attach(w2, s, Test(check, t), ForwardError(t));
    assert Wired(w3) && Identified(w3) && IsStream(w3, t) && w3.lastId == t && |w3.promises| == p + 1 by {
      assert WiredListener(Listener(w2.lastRecord + 1, Test(check, t), ForwardError(t)), s, w2.lastId, |w2.promises|);
      AttachKeeps(w2, s, Test(check, t), ForwardError(t));
    }
    var b := Attach(w3, t, Resolve(p), Reject(p));
    assert Wired(b) && Identified(b) by {
      assert WiredListener(Listener(w3.lastRecord + 1, Resolve(p), Reject(p)), t, w3.lastId, |w3.promises|);
      AttachKeeps(w3, t, Resolve(p), Reject(p));
    }
    assert b == Bridged(w, s, check);
  }

  /**
   * `asPromise(check)` on a stream with no other records: the promise
   * settles with the first value for which `check` returns true, or with the
   * first error (including one `check` throws). The record pushed onto the
   * source stays there, so every later error reaching the orphaned filtered
   * stream is queued to be raised.
   */
  lemma AsPromiseSettlesOnFirst(w: World, s: StreamId, check: Value -> Result<bool>, evs: seq<Event>)
    requires Wired(w) && Identified(w) && IsStream(w, s) && w.listeners[s - 1] == []
    ensures Wired(Bridged(w, s, check))
    ensures var b := Bridged(w, s, check);
      var r := Emit(b, s, evs);
      var fed := FilterEvents(check, evs);
      r.promises[|w.promises|] == FirstOutcome(fed) &&
      r.listeners[s - 1] == b.listeners[s - 1] && |r.listeners[s - 1]| == 1 &&
      r.raises == w.raises + (if |fed| == 0 then [] else Faults(fed[1..]))
  {
    var p := |w.promises|;
    var t := w.lastId + 1;
    BridgedKeeps(w, s, check);
    var b := Bridged(w, s, check);
    var filterRecord := Listener(w.lastRecord + 1, Test(check, t), ForwardError(t));
    assert b.listeners[s - 1] == [filterRecord];
    RelayedEmit(b, s, filterRecord, t, evs);
    BridgeSettlesOnFirst(b, t, w.lastRecord + 2, p, FilterEvents(check, evs));
  }

  /**
   * `asPromise(check)` on a stream that already has a consumer: when that
   * consumer throws on a value, its fault goes to the stream's `error`,
   * reaches the filter record before the value does, and rejects the
   * promise, whatever `check` says of the value.
   */
  lemma SiblingFaultRejects(w: World, s: StreamId, check: Value -> Result<bool>, v: Value)
    requires Wired(w) && Identified(w) && IsStream(w, s) && |w.listeners[s - 1]| == 1
    requires Sink(w.listeners[s - 1][0]) && w.listeners[s - 1][0].next.Record?
    requires w.listeners[s - 1][0].next.throws(v).Some?
    ensures Wired(Bridged(w, s, check))
    ensures DeliverNext(Bridged(w, s, check), s, v).promises[|w.promises|] ==
      Rejected(w.listeners[s - 1][0].next.throws(v).value)
  {
    var p := |w.promises|;
    var t := w.lastId + 1;
    BridgedKeeps(w, s, check);
    var b := Bridged(w, s, check);
    var c := w.listeners[s - 1][0];
    var filterRecord := Listener(w.lastRecord + 1, Test(check, t), ForwardError(t));
    var bridge := Listener(w.lastRecord + 2, Resolve(p), Reject(p));
    assert b.listeners[s - 1] == [c, filterRecord];
    ConsumerFaultRejects(b, s, c, filterRecord, t, bridge, p, v);
  }

  /** A value on a stream whose consumer throws on it, before the filter record of `asPromise`, rejects the promise. */
  lemma ConsumerFaultRejects(b: World, s: StreamId, c: Listener, fr: Listener, t: StreamId, bridge: Listener, p: nat, v: Value)
    requires Wired(b) && IsStream(b, s) && IsStream(b, t) && b.listeners[s - 1] == [c, fr]
    requires Sink(c) && c.next.Record? && c.next.throws(v).Some?
    requires fr.error == ForwardError(t) && b.listeners[t - 1] == [bridge] && bridge.error == Reject(p)
    requires p < |b.promises| && b.promises[p].Pending?
    ensures DeliverNext(b, s, v).promises[p] == Rejected(c.next.throws(v).value)
  {
    var f := c.next.throws(v).value;
    var ls := [c, fr];
    assert AllWired(ls, s, b.lastId, |b.promises|);
    var n1 := NextOne(b, s, c, v);
    assert n1.promises[p] == Rejected(f) by {
      var b1 := b.(observed := b.observed + [Saw(c.rid, Next(v))]);
      LogsIrrelevant(b, b1.observed, b1.raises);
      assert n1 == DeliverError(b1, s, f);
      FaultReachesBridge(b1, s, c, fr, t, bridge, p, f);
    }
    NextEachUnfold(b, s, ls, v);
    assert ls[1..] == [fr];
  }

  /** A fault on a stream whose consumer comes before the filter record of `asPromise` rejects the promise. */
  lemma FaultReachesBridge(w: World, s: StreamId, c: Listener, fr: Listener, t: StreamId, bridge: Listener, p: nat, f: Fault)
    requires Wired(w) && IsStream(w, s) && IsStream(w, t) && w.listeners[s - 1] == [c, fr] && Sink(c)
    requires fr.error == ForwardError(t) && w.listeners[t - 1] == [bridge] && bridge.error == Reject(p)
    requires p < |w.promises| && w.promises[p].Pending?
    ensures DeliverError(w, s, f).promises[p] == Rejected(f)
  {
    var ls := [c, fr];
    assert AllWired(w.listeners[s - 1], s, w.lastId, |w.promises|);
    ErrorEachUnfold(w, s, ls, f);
    ErrorOneSink(w, s, c, f);
    var w2 := w.(observed := w.observed + ErrorSeen(c, f), raises := w.raises + ErrorThrown(c, f));
    LogsIrrelevant(w, w2.observed, w2.raises);
    assert ls[1..] == [fr];
    assert ErrorOne(w2, s, fr, f) == DeliverError(w2, t, f);
    ErrorEachUnfold(w2, s, [fr], f);
    DeliverToOne(w2, t, bridge, Error(f));
  }

  /**
   * `merge` with a source that already has a consumer: when that consumer
   * throws on a value, the merged stream is fed the fault as an error before
   * it is fed the value.
   */
  lemma SiblingFaultReachesMerge(w: World, s: StreamId, c: Listener, m: Listener, ret: StreamId, v: Value)
    requires Wired(w) && IsStream(w, s) && w.listeners[s - 1] == [c, m] && MergeRecord(m, ret)
    requires Sink(c) && c.next.Record? && c.next.throws(v).Some?
    ensures var f := c.next.throws(v).value;
      var w2 := w.(observed := w.observed + [Saw(c.rid, Next(v))] + ErrorSeen(c, f), raises := w.raises + ErrorThrown(c, f));
      Wired(w2) && IsStream(w2, ret) &&
      DeliverNext(w, s, v) == Emit(w2, ret, [Error(f), Next(v)])
  {
    var f := c.next.throws(v).value;
    var ls := [c, m];
    var w1 := w.(observed := w.observed + [Saw(c.rid, Next(v))]);
    var w2 := w1.(observed := w1.observed + ErrorSeen(c, f), raises := w1.raises + ErrorThrown(c, f));
    assert w2 == w.(observed := w.observed + [Saw(c.rid, Next(v))] + ErrorSeen(c, f), raises := w.raises + ErrorThrown(c, f));
    LogsIrrelevant(w, w1.observed, w1.raises);
    assert AllWired(ls, s, w.lastId, |w.promises|);
    var n1 := NextOne(w, s, c, v);
    assert n1 == DeliverError(w2, ret, f) by {
      assert n1 == DeliverError(w1, s, f);
      ConsumerFaultToMerge(w1, s, c, m, ret, f);
    }
    ConsumerThenMerge(w, s, c, m, ret, v);
    ErrorThenNext(w2, ret, f, v);
  }

  /** `next(v)` on a source holding a consumer, then a `merge` record: the consumer's turn, then the merged stream's. */
  lemma ConsumerThenMerge(w: World, s: StreamId, c: Listener, m: Listener, ret: StreamId, v: Value)
    requires Wired(w) && IsStream(w, s) && w.listeners[s - 1] == [c, m] && MergeRecord(m, ret) && Sink(c)
    ensures WiredListener(c, s, w.lastId, |w.promises|) && IsStream(w, ret)
    ensures DeliverNext(w, s, v) == DeliverNext(NextOne(w, s, c, v), ret, v)
  {
    var ls := [c, m];
    assert AllWired(ls, s, w.lastId, |w.promises|);
    assert WiredListener(ls[1], s, w.lastId, |w.promises|);
    NextEachUnfold(w, s, ls, v);
    assert ls[1..] == [m];
    NextEachUnfold(NextOne(w, s, c, v), s, [m], v);
  }

  lemma ErrorThenNext(w: World, t: StreamId, f: Fault, v: Value)
    requires Wired(w) && IsStream(w, t)
    ensures Emit(w, t, [Error(f), Next(v)]) == DeliverNext(DeliverError(w, t, f), t, v)
  {
    EmitUnfold(w, t, [Error(f), Next(v)]);
    assert [Error(f), Next(v)][1..] == [Next(v)];
    EmitSingle(DeliverError(w, t, f), t, Next(v));
  }

  /** A fault on a stream whose consumer comes before a `merge` record goes on to the merged stream. */
  lemma ConsumerFaultToMerge(w: World, s: StreamId, c: Listener, m: Listener, ret: StreamId, f: Fault)
    requires Wired(w) && IsStream(w, s) && w.listeners[s - 1] == [c, m] && MergeRecord(m, ret) && Sink(c)
    ensures var w2 := w.(observed := w.observed + ErrorSeen(c, f), raises := w.raises + ErrorThrown(c, f));
      Wired(w2) && IsStream(w2, ret) && DeliverError(w, s, f) == DeliverError(w2, ret, f)
  {
    var ls := [c, m];
    var w2 := w.(observed := w.observed + ErrorSeen(c, f), raises := w.raises + ErrorThrown(c, f));
    LogsIrrelevant(w, w2.observed, w2.raises);
    assert AllWired(ls, s, w.lastId, |w.promises|);
    assert WiredListener(ls[1], s, w.lastId, |w.promises|);
    ErrorEachUnfold(w, s, ls, f);
    ErrorOneSink(w, s, c, f);
    assert ls[1..] == [m];
    ErrorEachUnfold(w2, s, [m], f);
  }
}
