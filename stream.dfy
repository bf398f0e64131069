/**
 * The `Stream` class and its module scope. One `Registry` holds the
 * module-level `id` counter and the `listeners` array of every stream; a
 * stream is referred to by its id. Each method changes the fields in place,
 * as the corresponding `Stream` method does, and states the new state as a
 * function of the old one.
 */
module Streams {
  import opened Events
  import opened Listeners
  import opened Worlds
  import opened Dispatch

  /** The closure `subscribe` returns: it removes one record from one stream. */
  datatype Unsubscriber = Unsubscriber(stream: StreamId, rid: nat)

  /** One argument of `Stream.merge`: a stream, or an array of streams. */
  datatype MergeArg = One(stream: StreamId) | Many(streams: seq<StreamId>)

  /** `merge` takes an array as its first argument, or streams as all its arguments. */
  predicate MergeArgsOk(args: seq<MergeArg>)
  {
    (|args| > 0 && args[0].Many?) || forall i :: 0 <= i < |args| ==> args[i].One?
  }

  /** The sources of `merge`: an array given as first argument, else the argument list (index.js:85-87). */
  function Sources(args: seq<MergeArg>): (r: seq<StreamId>)
    requires MergeArgsOk(args)
    ensures |args| > 0 && args[0].Many? ==> r == args[0].streams
    ensures !(|args| > 0 && args[0].Many?) ==> |r| == |args| && forall i :: 0 <= i < |args| ==> r[i] == args[i].stream
  {
    if |args| > 0 && args[0].Many? then args[0].streams
    else seq(|args|, i requires 0 <= i < |args| => args[i].stream)
  }

  /** The variadic form of `merge`. */
  function Spread(ss: seq<StreamId>): seq<MergeArg>
  {
    seq(|ss|, i requires 0 <= i < |ss| => One(ss[i]))
  }

  /** Each source in turn gains a record relaying values and faults to `ret` (index.js:88-93). */
  function MergeAttach(w: World, srcs: seq<StreamId>, ret: StreamId): (r: World)
    requires |w.listeners| == w.lastId && forall i :: 0 <= i < |srcs| ==> 1 <= srcs[i] <= w.lastId
    ensures r.lastId == w.lastId && |r.listeners| == |w.listeners| && r.promises == w.promises
    ensures r.lastRecord == w.lastRecord + |srcs|
    ensures r.observed == w.observed && r.raises == w.raises
    decreases |srcs|
  {
    if |srcs| == 0 then w
    else MergeAttach(Attach(w, srcs[0], Forward(ret), ForwardError(ret)), srcs[1..], ret)
  }

  /** The record `merge` attaches to a source. */
  predicate MergeRecord(l: Listener, ret: StreamId)
  {
    l.next == Forward(ret) && l.error == ForwardError(ret)
  }

  /**
   * `merge` subscribes once per occurrence of a stream among its sources:
   * that stream keeps its records and gains that many forwarding records.
   */
  lemma {:induction false} MergeSubscribesOnce(w: World, srcs: seq<StreamId>, ret: StreamId, k: nat)
    requires |w.listeners| == w.lastId && forall i :: 0 <= i < |srcs| ==> 1 <= srcs[i] <= w.lastId
    requires k < |w.listeners|
    ensures var r := MergeAttach(w, srcs, ret);
      |r.listeners[k]| == |w.listeners[k]| + multiset(srcs)[k + 1] &&
      r.listeners[k][..|w.listeners[k]|] == w.listeners[k] &&
      forall i :: |w.listeners[k]| <= i < |r.listeners[k]| ==> MergeRecord(r.listeners[k][i], ret)
    decreases |srcs|
  {
    if |srcs| > 0 {
      var w1 := Attach(w, srcs[0], Forward(ret), ForwardError(ret));
      MergeSubscribesOnce(w1, srcs[1..], ret, k);
      assert srcs == [srcs[0]] + srcs[1..];
      assert multiset(srcs) == multiset{srcs[0]} + multiset(srcs[1..]);
      var r := MergeAttach(w1, srcs[1..], ret);
      if srcs[0] == k + 1 {
        assert w1.listeners[k] == w.listeners[k] + [Listener(w.lastRecord + 1, Forward(ret), ForwardError(ret))];
        assert r.listeners[k][..|w.listeners[k]|] == r.listeners[k][..|w1.listeners[k]|][..|w.listeners[k]|];
      }
    }
  }

  /** An array argument and the same streams passed one by one give the same sources. */
  lemma MergeFormsAgree(ss: seq<StreamId>, extra: seq<MergeArg>)
    ensures MergeArgsOk([Many(ss)] + extra) && MergeArgsOk(Spread(ss))
    ensures Sources([Many(ss)] + extra) == ss
    ensures Sources(Spread(ss)) == ss
  {
    if |ss| > 0 {
      assert Spread(ss)[0].One?;
    }
  }

  class Registry {
    var lastId: nat                   // the module-level `id`
    var listeners: seq<seq<Listener>> // the listener array of stream k is listeners[k - 1]
    var lastRecord: nat               // the identity of the newest listener record
    var promises: seq<Settlement>     // the promises returned by `asPromise`
    var observed: seq<Observation>    // calls of consumer callbacks, in order
    var raises: seq<Fault>            // faults queued with `setImmediate`

    function State(): World
      reads this
    {
      World(lastId, listeners, lastRecord, promises, observed, raises)
    }

    ghost predicate Valid()
      reads this
    {
      Wired(State()) && Identified(State())
    }

    /** Module load: `let id = 0`, no streams yet. */
    constructor ()
      ensures Valid() && State() == World(0, [], 0, [], [], [])
    {
      lastId, listeners, lastRecord := 0, [], 0;
      promises, observed, raises := [], [], [];
    }

    /** Stream construction: the counter moves on, the new stream takes it as its id, and its array is empty (index.js:6-9). */
    method NewStream() returns (s: StreamId)
      requires Valid()
      modifies this
      ensures Valid() && State() == Spawn(old(State()))
      ensures s == old(lastId) + 1 && s == lastId && listeners[s - 1] == []
    {
      SpawnKeeps(State());
      lastId := lastId + 1;
      s := lastId;
      listeners := listeners + [[]];
    }

    /**
     * `subscribe(handlers)`: a bare function is refused with an error and
     * changes nothing; otherwise one record is appended, and the returned
     * closure removes that record.
     */
    method Subscribe(s: StreamId, h: HandlersArg) returns (r: Result<Unsubscriber>)
      requires Valid() && IsStream(State(), s)
      requires h.Handlers? ==>
        WiredListener(Listener(lastRecord + 1, Normalize(h).0, Normalize(h).1), s, lastId, |promises|)
      modifies this
      ensures Valid()
      ensures h.Callable? ==> r == Threw(Fault("handlers must be an object")) && State() == old(State())
      ensures h.Handlers? ==>
        r == Ok(Unsubscriber(s, old(lastRecord) + 1)) &&
        State() == Attach(old(State()), s, Normalize(h).0, Normalize(h).1)
    {
      if h.Callable? {
        return Threw(Fault("handlers must be an object"));
      }
      var (next, error) := Normalize(h);
      AttachKeeps(State(), s, next, error);
      listeners := listeners[s - 1 := listeners[s - 1] + [Listener(lastRecord + 1, next, error)]];
      lastRecord := lastRecord + 1;
      r := Ok(Unsubscriber(s, lastRecord));
    }

    /** The unsubscribe closure: its stream's array loses the records with its identity (index.js:78-80). */
    method Unsubscribe(u: Unsubscriber)
      requires Valid() && IsStream(State(), u.stream)
      modifies this
      ensures Valid() && State() == Unsubscribed(old(State()), u.stream, u.rid)
    {
      UnsubscribedEvolves(State(), u.stream, u.rid);
      EvolvesWired(State(), Unsubscribed(State(), u.stream, u.rid), u.stream);
      EvolvesIdentified(State(), Unsubscribed(State(), u.stream, u.rid), u.stream);
      listeners := listeners[u.stream - 1 := Remove(listeners[u.stream - 1], u.rid)];
    }

    /** `next(v)`: a pass over the array as it is when the call begins. */
    method Next(s: StreamId, v: Value)
      requires Valid() && IsStream(State(), s)
      modifies this
      ensures Valid() && State() == DeliverNext(old(State()), s, v)
      decreases lastId - s, 1, 1
    {
      var snapshot := listeners[s - 1];
      ghost var goal := DeliverNext(State(), s, v);
      var i := 0;
      while i < |snapshot|
        invariant 0 <= i <= |snapshot|
        invariant Valid() && lastId == old(lastId) && |promises| == old(|promises|)
        invariant AllWired(snapshot[i..], s, lastId, |promises|)
        invariant NextEach(State(), s, snapshot[i..], v) == goal
      {
        ghost var before := State();
        assert snapshot[i..][0] == snapshot[i] && snapshot[i..][1..] == snapshot[i + 1..];
        NextEachUnfold(before, s, snapshot[i..], v);
        NextStep(s, snapshot[i], v);
        i := i + 1;
      }
    }

    /** One step of the pass of `next`: one record's `next` handler, and where a fault it throws goes (index.js:13-17). */
    method NextStep(s: StreamId, l: Listener, v: Value)
      requires Valid() && IsStream(State(), s) && WiredListener(l, s, lastId, |promises|)
      modifies this
      ensures Valid() && State() == NextOne(old(State()), s, l, v)
      decreases lastId - s, 1, 0
    {
      match l.next {
        case Ignore =>
        case Record(throws) =>
          LogsIrrelevant(State(), observed + [Saw(l.rid, Event.Next(v))], raises);
          observed := observed + [Saw(l.rid, Event.Next(v))];
          match throws(v) {
            case None =>
            case Some(e) => Error(s, e);
          }
        case Forward(t) =>
          Next(t, v);
        case Test(pred, t) =>
          match pred(v) {
            case Ok(keep) => if keep { Next(t, v); }
            case Threw(e) => Error(t, e);
          }
        case Apply(f, t) =>
          match f(v) {
            case Ok(u) => Next(t, u);
            case Threw(e) => Error(t, e);
          }
        case Resolve(p) =>
          SettleKeeps(State(), s, p, Resolved(v), l.rid);
          promises := Settle(promises, p, Resolved(v));
          listeners := listeners[s - 1 := Remove(listeners[s - 1], l.rid)];
      }
    }

    /**
     * `error(err)`: with no listeners the fault is queued to be raised;
     * otherwise a pass over the array as it is when the call begins.
     */
    method Error(s: StreamId, e: Fault)
      requires Valid() && IsStream(State(), s)
      modifies this
      ensures Valid() && State() == DeliverError(old(State()), s, e)
      decreases lastId - s, 0, 1
    {
      var snapshot := listeners[s - 1];
      ghost var goal := DeliverError(State(), s, e);
      if |snapshot| == 0 {
        LogsIrrelevant(State(), observed, raises + [e]);
        raises := raises + [e];
      }
      var i := 0;
      while i < |snapshot|
        invariant 0 <= i <= |snapshot|
        invariant Valid() && lastId == old(lastId) && |promises| == old(|promises|)
        invariant AllWired(snapshot[i..], s, lastId, |promises|)
        invariant ErrorEach(State(), s, snapshot[i..], e) == goal
      {
        ghost var before := State();
        assert snapshot[i..][0] == snapshot[i] && snapshot[i..][1..] == snapshot[i + 1..];
        ErrorEachUnfold(before, s, snapshot[i..], e);
        ErrorStep(s, snapshot[i], e);
        i := i + 1;
      }
    }

    /** One step of the pass of `error`: one record's `error` handler; what it throws is queued (index.js:26-31). */
    method ErrorStep(s: StreamId, l: Listener, e: Fault)
      requires Valid() && IsStream(State(), s) && WiredListener(l, s, lastId, |promises|)
      modifies this
      ensures Valid() && State() == ErrorOne(old(State()), s, l, e)
      decreases lastId - s, 0, 0
    {
      match l.error {
        case Rethrow =>
          LogsIrrelevant(State(), observed, raises + [e]);
          raises := raises + [e];
        case RecordError(throws) =>
          var seen := observed + [Saw(l.rid, Event.Error(e))];
          match throws(e) {
            case None =>
              LogsIrrelevant(State(), seen, raises);
              observed := seen;
            case Some(f) =>
              LogsIrrelevant(State(), seen, raises + [f]);
              observed, raises := seen, raises + [f];
          }
        case ForwardError(t) =>
          Error(t, e);
        case Reject(p) =>
          SettleKeeps(State(), s, p, Rejected(e), l.rid);
          promises := Settle(promises, p, Rejected(e));
          listeners := listeners[s - 1 := Remove(listeners[s - 1], l.rid)];
      }
    }

    /** `filter(fn)`: a new stream, fed by one record pushed onto this stream. */
    method Filter(s: StreamId, pred: Value -> Result<bool>) returns (t: StreamId)
      requires Valid() && IsStream(State(), s)
      modifies this
      ensures Valid() && t == old(lastId) + 1
      ensures State() == Attach(Spawn(old(State())), s, Test(pred, t), ForwardError(t))
    {
      t := NewStream();
      AttachKeeps(State(), s, Test(pred, t), ForwardError(t));
      listeners := listeners[s - 1 := listeners[s - 1] + [Listener(lastRecord + 1, Test(pred, t), ForwardError(t))]];
      lastRecord := lastRecord + 1;
    }

    /** `map(fn)`: a new stream, fed by one record pushed onto this stream. */
    method Map(s: StreamId, f: Value -> Result<Value>) returns (t: StreamId)
      requires Valid() && IsStream(State(), s)
      modifies this
      ensures Valid() && t == old(lastId) + 1
      ensures State() == Attach(Spawn(old(State())), s, Apply(f, t), ForwardError(t))
    {
      t := NewStream();
      AttachKeeps(State(), s, Apply(f, t), ForwardError(t));
      listeners := listeners[s - 1 := listeners[s - 1] + [Listener(lastRecord + 1, Apply(f, t), ForwardError(t))]];
      lastRecord := lastRecord + 1;
    }

    /** `Stream.merge(...)`: a new stream, subscribed to by a forwarding record on every source. */
    method Merge(args: seq<MergeArg>) returns (ret: StreamId)
      requires Valid() && MergeArgsOk(args)
      requires forall i :: 0 <= i < |Sources(args)| ==> 1 <= Sources(args)[i] <= lastId
      modifies this
      ensures Valid() && ret == old(lastId) + 1
      ensures State() == MergeAttach(Spawn(old(State())), Sources(args), ret)
    {
      ret := NewStream();
      var streams := Sources(args);
      ghost var goal := MergeAttach(State(), streams, ret);
      var i := 0;
      while i < |streams|
        invariant 0 <= i <= |streams|
        invariant Valid() && lastId == ret
        invariant forall j :: i <= j < |streams| ==> 1 <= streams[j] < ret
        invariant MergeAttach(State(), streams[i..], ret) == goal
      {
        assert streams[i..][0] == streams[i] && streams[i..][1..] == streams[i + 1..];
        var _ := Subscribe(streams[i], Handlers(Some(Forward(ret)), Some(ForwardError(ret))));
        i := i + 1;
      }
    }

    /**
     * `asPromise(check)`: a new pending promise; `filter(check)` on this
     * stream, and a subscription to the filtered stream that settles the
     * promise and unsubscribes itself.
     */
    method AsPromise(s: StreamId, check: Value -> Result<bool>) returns (p: nat)
      requires Valid() && IsStream(State(), s)
      modifies this
      ensures Valid() && p == old(|promises|)
      ensures State() == Bridged(old(State()), s, check)
    {
      p := |promises|;
      promises := promises + [Pending];
      assert Valid() by {
        var w := old(State());
        forall k | 0 <= k < |listeners| ensures AllWired(listeners[k], k + 1, lastId, |promises|) {
          assert AllWired(w.listeners[k], k + 1, w.lastId, |w.promises|);
        }
      }
      var t := Filter(s, check);
      var _ := Subscribe(t, Handlers(Some(Resolve(p)), Some(Reject(p))));
    }
  }

  /** The state after `asPromise(check)` on stream `s`. */
  function Bridged(w: World, s: StreamId, check: Value -> Result<bool>): (b: World)
    requires |w.listeners| == w.lastId && IsStream(w, s)
    ensures var t := w.lastId + 1;
      var p := |w.promises|;
      b.lastId == t && b.lastRecord == w.lastRecord + 2 &&
      b.promises == w.promises + [Pending] && b.observed == w.observed && b.raises == w.raises &&
      |b.listeners| == t && b.listeners[t - 1] == [Listener(w.lastRecord + 2, Resolve(p), Reject(p))] &&
      b.listeners[s - 1] == w.listeners[s - 1] + [Listener(w.lastRecord + 1, Test(check, t), ForwardError(t))] &&
      forall k :: 0 <= k < |w.listeners| && k != s - 1 ==> b.listeners[k] == w.listeners[k]
  {
    var w1 := w.(promises := w.promises + [Pending]);
    var t := w.lastId + 1;
    Attach(Attach(Spawn(w1), s, Test(check, t), ForwardError(t)), t, Resolve(|w.promises|), Reject(|w.promises|))
  }
}
