/**
 * The usage scenarios of the test suite, run against the `Registry`: each
 * builds a fresh program state, makes the calls the test makes, and states
 * what the consumer callbacks have seen. Values stand in for the test's
 * strings where the test uses strings.
 */
module Scenarios {
  import opened Events
  import opened Listeners
  import opened Worlds
  import opened Dispatch
  import opened Streams
  import opened Properties

  /** A callback that records every value and never throws, as the tests' collecting callbacks do. */
  const Collect: NextAction := Record((v: Value) => None)

  /** An error callback that records every fault and never throws. */
  const CollectErrors: ErrorAction := RecordError((e: Fault) => None)

  const Oops: Fault := Fault("Oops")

  /** One more call on the same stream extends the trace. */
  lemma EmitStep(w: World, s: StreamId, evs: seq<Event>, ev: Event)
    requires Wired(w) && IsStream(w, s)
    ensures Emit(w, s, evs + [ev]) == Deliver(Emit(w, s, evs), s, ev)
  {
    EmitAppend(w, s, evs, [ev]);
    EmitSingle(Emit(w, s, evs), s, ev);
  }

  lemma EmitPrefixStep(w: World, s: StreamId, evs: seq<Event>, i: nat)
    requires Wired(w) && IsStream(w, s) && i < |evs|
    ensures Emit(w, s, evs[..i + 1]) == Deliver(Emit(w, s, evs[..i]), s, evs[i])
  {
    EmitStep(w, s, evs[..i], evs[i]);
    assert evs[..i + 1] == evs[..i] + [evs[i]];
  }

  lemma NextsOfThree(a: Value, b: Value, c: Value)
    ensures Nexts([a, b, c]) == [Next(a), Next(b), Next(c)]
  {
  }

  lemma NextsOfFour(a: Value, b: Value, c: Value, d: Value)
    ensures Nexts([a, b, c, d]) == [Next(a), Next(b), Next(c), Next(d)]
  {
  }

  /** Makes the one call `ev` on stream `s`: `next(v)` or `error(e)`. */
  method Call(reg: Registry, s: StreamId, ev: Event)
    requires reg.Valid() && IsStream(reg.State(), s)
    modifies reg
    ensures reg.Valid() && reg.State() == Deliver(old(reg.State()), s, ev)
  {
    match ev {
      case Next(v) => reg.Next(s, v);
      case Error(e) => reg.Error(s, e);
    }
  }

  /** Makes the calls `evs` on stream `s`, in order, as a test does. */
  method Run(reg: Registry, s: StreamId, evs: seq<Event>)
    requires reg.Valid() && IsStream(reg.State(), s)
    modifies reg
    ensures reg.Valid() && reg.State() == Emit(old(reg.State()), s, evs)
  {
    ghost var w := reg.State();
    var i := 0;
    while i < |evs|
      invariant 0 <= i <= |evs|
      invariant reg.Valid() && reg.State() == Emit(w, s, evs[..i])
    {
      EmitPrefixStep(w, s, evs, i);
      Call(reg, s, evs[i]);
      i := i + 1;
    }
    assert evs[..i] == evs;
  }

  /** Makes the calls `calls`, each on its own stream, in order. */
  method RunAcross(reg: Registry, calls: seq<(StreamId, Event)>)
    requires reg.Valid() && forall i :: 0 <= i < |calls| ==> IsStream(reg.State(), calls[i].0)
    modifies reg
    ensures reg.Valid() && reg.State() == EmitAcross(old(reg.State()), calls)
  {
    ghost var w := reg.State();
    var i := 0;
    while i < |calls|
      invariant 0 <= i <= |calls|
      invariant reg.Valid() && reg.State() == EmitAcross(w, calls[..i])
    {
      EmitAcrossPrefixStep(w, calls, i);
      Call(reg, calls[i].0, calls[i].1);
      i := i + 1;
    }
    assert calls[..i] == calls;
  }

  /** A subscriber with a `next` callback, then one value: the callback sees it. */
  method SubscribeScenario() returns (seen: seq<Observation>)
    ensures seen == [Saw(1, Next(7))]
  {
    var reg := new Registry();
    var s := reg.NewStream();
    var _ := reg.Subscribe(s, Handlers(Some(Collect), None));
    ghost var w := reg.State();
    assert w.listeners[s - 1] == [Listener(1, Collect, Rethrow)];
    reg.Next(s, 7);
    EmitStep(w, s, [], Next(7));
    QuietSubscriber(w, s, Listener(1, Collect, Rethrow), [7]);
    assert Nexts([7]) == [Next(7)];
    seen := reg.observed;
  }

  /** The predicate of the filter test: non-negative values pass. */
  function NonNegative(v: Value): bool
  {
    v >= 0
  }

  /** The transform of the map test: the remainder by 2 (on the test's positive values JavaScript's `%` agrees). */
  function Parity(v: Value): Value
  {
    v % 2
  }

  /** A fresh stream, its filter by `pred`, and a record with the given handlers on the filtered stream. */
  method FilterSetup(pred: Value -> Result<bool>, next: NextAction, error: ErrorAction) returns (reg: Registry)
    requires next.Ignore? || next.Record?
    requires error.Rethrow? || error.RecordError?
    ensures fresh(reg) && reg.Valid() && reg.lastId == 2 && reg.observed == [] && reg.raises == []
    ensures |reg.listeners| == 2 && reg.listeners[0] == [Listener(1, Test(pred, 2), ForwardError(2))]
    ensures reg.listeners[1] == [Listener(2, next, error)]
  {
    reg := new Registry();
    var s := reg.NewStream();
    assert reg.lastId == 1 && reg.listeners == [[]] && reg.lastRecord == 0 && reg.observed == [] && reg.raises == [];
    var t := reg.Filter(s, pred);
    assert reg.lastId == 2 && reg.lastRecord == 1 && reg.observed == [] && reg.raises == [];
    assert |reg.listeners| == 2 && reg.listeners[0] == [Listener(1, Test(pred, 2), ForwardError(2))] && reg.listeners[1] == [];
    var _ := reg.Subscribe(t, Handlers(Some(next), Some(error)));
  }

  /** What the filter test sees, on the state its setup builds. */
  lemma FilterOutcome(w: World)
    requires Wired(w) && w.lastId == 2 && w.observed == []
    requires w.listeners[0] == [Listener(1, Test(Total(NonNegative), 2), ForwardError(2))]
    requires w.listeners[1] == [Listener(2, Collect, Rethrow)]
    ensures Emit(w, 1, Nexts([-1, 1, -1])).observed == [Saw(2, Next(1))]
  {
    var vs := [-1, 1, -1];
    FilterForwards(w, 1, 1, Total(NonNegative), 2, Nexts(vs));
    FilterIsKeep(NonNegative, vs);
    assert Keep(NonNegative, vs) == [1] by {
      assert vs[1..] == [1, -1] && vs[1..][1..] == [-1] && vs[1..][1..][1..] == [];
    }
    QuietSubscriber(w, 2, Listener(2, Collect, Rethrow), [1]);
    assert [1][1..] == [];
  }

  /** A filter for non-negative values, then the values -1, 1, -1: only 1 gets through. */
  method FilterScenario() returns (seen: seq<Observation>)
    ensures seen == [Saw(2, Next(1))]
  {
    var reg := FilterSetup(Total(NonNegative), Collect, Rethrow);
    ghost var w := reg.State();
    Run(reg, 1, [Next(-1), Next(1), Next(-1)]);
    NextsOfThree(-1, 1, -1);
    FilterOutcome(w);
    seen := reg.observed;
  }

  /** What the map test sees, on the state its setup builds. */
  lemma MapOutcome(w: World)
    requires Wired(w) && w.lastId == 2 && w.observed == []
    requires w.listeners[0] == [Listener(1, Apply(TotalMap(Parity), 2), ForwardError(2))]
    requires w.listeners[1] == [Listener(2, Collect, Rethrow)]
    ensures Emit(w, 1, Nexts([1, 2, 3, 4])).observed ==
      [Saw(2, Next(1)), Saw(2, Next(0)), Saw(2, Next(1)), Saw(2, Next(0))]
  {
    MapForwards(w, 1, 1, TotalMap(Parity), 2, Nexts([1, 2, 3, 4]));
    ParityTrace();
    QuietSubscriber(w, 2, Listener(2, Collect, Rethrow), [1, 0, 1, 0]);
  }

  /** The mapped stream of the map test is fed 1, 0, 1, 0, and its subscriber sees them in order. */
  lemma ParityTrace()
    ensures MapEvents(TotalMap(Parity), Nexts([1, 2, 3, 4])) == Nexts([1, 0, 1, 0])
    ensures Seen(2, [1, 0, 1, 0]) == [Saw(2, Next(1)), Saw(2, Next(0)), Saw(2, Next(1)), Saw(2, Next(0))]
  {
    var vs := [1, 2, 3, 4];
    MapIsPointwise(Parity, vs);
    assert seq(|vs|, i requires 0 <= i < |vs| => Parity(vs[i])) == [1, 0, 1, 0];
    SeenInOrder(2, [1, 0, 1, 0]);
  }

  /** A map to the remainder by 2, then the values 1 to 4: the callback sees 1, 0, 1, 0. */
  method MapScenario() returns (seen: seq<Observation>)
    ensures seen == [Saw(2, Next(1)), Saw(2, Next(0)), Saw(2, Next(1)), Saw(2, Next(0))]
  {
    var reg := new Registry();
    var s := reg.NewStream();
    assert reg.lastId == 1 && reg.listeners == [[]] && reg.lastRecord == 0 && reg.observed == [];
    var t := reg.Map(s, TotalMap(Parity));
    assert reg.lastId == 2 && reg.lastRecord == 1 && reg.observed == [];
    assert |reg.listeners| == 2 && reg.listeners[0] == [Listener(1, Apply(TotalMap(Parity), 2), ForwardError(2))] && reg.listeners[1] == [];
    var _ := reg.Subscribe(t, Handlers(Some(Collect), None));
    assert reg.lastId == 2 && reg.observed == [];
    assert |reg.listeners| == 2 && reg.listeners[0] == [Listener(1, Apply(TotalMap(Parity), 2), ForwardError(2))] && reg.listeners[1] == [Listener(2, Collect, Rethrow)];
    ghost var w := reg.State();
    Run(reg, s, [Next(1), Next(2), Next(3), Next(4)]);
    NextsOfFour(1, 2, 3, 4);
    MapOutcome(w);
    seen := reg.observed;
  }

  /** A value, the unsubscribe closure, then another value: only the first value is seen. */
  method UnsubscribeScenario() returns (seen: seq<Observation>)
    ensures seen == [Saw(1, Next(7))]
  {
    var reg := new Registry();
    var s := reg.NewStream();
    var r := reg.Subscribe(s, Handlers(Some(Collect), None));
    ghost var w := reg.State();
    reg.Next(s, 7);
    EmitStep(w, s, [], Next(7));
    QuietSubscriber(w, s, Listener(1, Collect, Rethrow), [7]);
    assert Nexts([7]) == [Next(7)];
    assert reg.observed == [Saw(1, Next(7))];
    reg.Unsubscribe(r.value);
    assert reg.listeners[s - 1] == [] by {
      assert Remove([Listener(1, Collect, Rethrow)], 1) == [];
    }
    ghost var u := reg.State();
    reg.Next(s, 8);
    DeliverToNone(u, s, Next(8));
    assert Faults([Next(8)]) == [];
    seen := reg.observed;
  }

  lemma EmitAcrossPrefixStep(w: World, calls: seq<(StreamId, Event)>, i: nat)
    requires Wired(w) && i < |calls| && forall j :: 0 <= j < |calls| ==> IsStream(w, calls[j].0)
    ensures IsStream(EmitAcross(w, calls[..i]), calls[i].0)
    ensures EmitAcross(w, calls[..i + 1]) == Deliver(EmitAcross(w, calls[..i]), calls[i].0, calls[i].1)
  {
    assert forall j :: 0 <= j < |calls[..i]| ==> IsStream(w, calls[..i][j].0);
    EmitAcrossStep(w, calls[..i], calls[i]);
    assert calls[..i + 1] == calls[..i] + [calls[i]];
  }

  /** One more call extends a trace across streams. */
  lemma {:induction false} EmitAcrossStep(w: World, calls: seq<(StreamId, Event)>, c: (StreamId, Event))
    requires Wired(w) && IsStream(w, c.0) && forall i :: 0 <= i < |calls| ==> IsStream(w, calls[i].0)
    ensures forall i :: 0 <= i < |calls + [c]| ==> IsStream(w, (calls + [c])[i].0)
    ensures IsStream(EmitAcross(w, calls), c.0)
    ensures EmitAcross(w, calls + [c]) == Deliver(EmitAcross(w, calls), c.0, c.1)
    decreases |calls|
  {
    assert forall i :: 0 <= i < |calls + [c]| ==> IsStream(w, (calls + [c])[i].0) by {
      forall i | 0 <= i < |calls + [c]| ensures IsStream(w, (calls + [c])[i].0) {
        if i < |calls| {
          assert (calls + [c])[i] == calls[i];
        }
      }
    }
    if |calls| == 0 {
      assert calls + [c] == [c] && [c][1..] == [];
    } else {
      var w1 := Deliver(w, calls[0].0, calls[0].1);
      assert (calls + [c])[1..] == calls[1..] + [c];
      assert forall i :: 0 <= i < |calls[1..]| ==> IsStream(w1, calls[1..][i].0) by {
        assert forall i :: 1 <= i < |calls| ==> IsStream(w, calls[i].0);
      }
      EmitAcrossStep(w1, calls[1..], c);
    }
  }

  /** `merge` of two streams sets up one forwarding record on each. */
  lemma MergeTwo(w: World, a: StreamId, b: StreamId, ret: StreamId)
    requires |w.listeners| == w.lastId && 1 <= a <= w.lastId && 1 <= b <= w.lastId
    ensures MergeAttach(w, [a, b], ret) ==
      Attach(Attach(w, a, Forward(ret), ForwardError(ret)), b, Forward(ret), ForwardError(ret))
  {
    var w1 := Attach(w, a, Forward(ret), ForwardError(ret));
    assert [a, b][1..] == [b] && [b][1..] == [];
    assert MergeAttach(w, [a, b], ret) == MergeAttach(w1, [b], ret);
    assert MergeAttach(w1, [b], ret) == MergeAttach(Attach(w1, b, Forward(ret), ForwardError(ret)), [], ret);
  }

  /** The calls of the merge test: 1 on the first source, 2 on the second, 3 on the first, 4 on the second. */
  const MergeCalls: seq<(StreamId, Event)> := [(1, Next(1)), (2, Next(2)), (1, Next(3)), (2, Next(4))]

  lemma MergeTrace()
    ensures CallEvents(MergeCalls) == Nexts([1, 2, 3, 4])
    ensures Seen(3, [1, 2, 3, 4]) == [Saw(3, Next(1)), Saw(3, Next(2)), Saw(3, Next(3)), Saw(3, Next(4))]
  {
    NextsOfFour(1, 2, 3, 4);
    SeenInOrder(3, [1, 2, 3, 4]);
  }

  /** What the merge test sees, on the state its setup builds. */
  lemma MergeOutcome(w: World)
    requires Wired(w) && w.lastId == 3 && w.observed == []
    requires w.listeners[0] == [Listener(1, Forward(3), ForwardError(3))]
    requires w.listeners[1] == [Listener(2, Forward(3), ForwardError(3))]
    requires w.listeners[2] == [Listener(3, Collect, Rethrow)]
    ensures forall i :: 0 <= i < |MergeCalls| ==> IsStream(w, MergeCalls[i].0)
    ensures EmitAcross(w, MergeCalls).observed ==
      [Saw(3, Next(1)), Saw(3, Next(2)), Saw(3, Next(3)), Saw(3, Next(4))]
  {
    MergeInterleaves(w, 3, MergeCalls);
    MergeTrace();
    QuietSubscriber(w, 3, Listener(3, Collect, Rethrow), [1, 2, 3, 4]);
  }

  /** The setup of the merge test: two streams, their merge, and a subscriber on it. */
  method MergeSetup() returns (reg: Registry)
    ensures fresh(reg) && reg.Valid() && reg.lastId == 3 && reg.observed == []
    ensures |reg.listeners| == 3 && reg.listeners[0] == [Listener(1, Forward(3), ForwardError(3))] &&
      reg.listeners[1] == [Listener(2, Forward(3), ForwardError(3))] &&
      reg.listeners[2] == [Listener(3, Collect, Rethrow)]
  {
    reg := new Registry();
    var s1 := reg.NewStream();
    var s2 := reg.NewStream();
    ghost var w0 := reg.State();
    assert w0 == World(2, [[], []], 0, [], [], []);
    var ret := reg.Merge([One(s1), One(s2)]);
    assert Sources([One(1), One(2)]) == [1, 2];
    MergeTwo(Spawn(w0), 1, 2, 3);
    assert reg.lastId == 3 && reg.lastRecord == 2 && reg.observed == [];
    assert |reg.listeners| == 3 && reg.listeners[0] == [Listener(1, Forward(3), ForwardError(3))] &&
      reg.listeners[1] == [Listener(2, Forward(3), ForwardError(3))] && reg.listeners[2] == [];
    var _ := reg.Subscribe(ret, Handlers(Some(Collect), None));
  }

  /** Two streams merged, then values on both sources: the merged stream sees them in call order. */
  method MergeScenario() returns (seen: seq<Observation>)
    ensures seen == [Saw(3, Next(1)), Saw(3, Next(2)), Saw(3, Next(3)), Saw(3, Next(4))]
  {
    var reg := MergeSetup();
    ghost var w := reg.State();
    RunAcross(reg, MergeCalls);
    MergeOutcome(w);
    seen := reg.observed;
  }

  /** What the error-handler test sees, on the state its setup builds. */
  lemma ErrorHandlerOutcome(w: World)
    requires Wired(w) && w.lastId == 1 && w.observed == [] && w.raises == []
    requires w.listeners[0] == [Listener(1, Ignore, CollectErrors)]
    ensures DeliverError(w, 1, Oops).observed == [Saw(1, Error(Oops))]
    ensures DeliverError(w, 1, Oops).raises == []
  {
    ErrorReachesEveryListener(w, 1, Oops);
    assert ErrorObs([Listener(1, Ignore, CollectErrors)], Oops) == [Saw(1, Error(Oops))] + [];
    assert ErrorRaises([Listener(1, Ignore, CollectErrors)], Oops) == [] + [];
  }

  /** A subscriber with both callbacks, then an error: the handler sees it and nothing is raised. */
  method ErrorHandlerScenario() returns (seen: seq<Observation>, raised: seq<Fault>)
    ensures seen == [Saw(1, Error(Oops))] && raised == []
  {
    var reg := new Registry();
    var s := reg.NewStream();
    var _ := reg.Subscribe(s, Handlers(Some(Ignore), Some(CollectErrors)));
    assert reg.lastId == 1 && reg.observed == [] && reg.raises == [];
    assert reg.listeners[0] == [Listener(1, Ignore, CollectErrors)];
    ghost var w := reg.State();
    reg.Error(s, Oops);
    ErrorHandlerOutcome(w);
    seen, raised := reg.observed, reg.raises;
  }

  /** The predicate of the error-through-filter test: it rejects every value. */
  function Never(v: Value): bool
  {
    false
  }

  /** The predicate of the throwing-filter test: it throws the fault "Oops" on every value. */
  function Throwing(v: Value): Result<bool>
  {
    Threw(Oops)
  }

  /** What a filtered stream's error-recording subscriber sees when the source gets `ev`. */
  lemma FilteredErrorOutcome(w: World, pred: Value -> Result<bool>, ev: Event)
    requires Wired(w) && w.lastId == 2 && w.observed == [] && w.raises == []
    requires w.listeners[0] == [Listener(1, Test(pred, 2), ForwardError(2))]
    requires w.listeners[1] == [Listener(2, Ignore, CollectErrors)]
    requires FilterEvent(pred, ev) == [Error(Oops)]
    ensures Deliver(w, 1, ev).observed == [Saw(2, Error(Oops))] && Deliver(w, 1, ev).raises == []
  {
    var l := Listener(2, Ignore, CollectErrors);
    FilterForwards(w, 1, 1, pred, 2, [ev]);
    EmitSingle(w, 1, ev);
    assert FilterEvents(pred, [ev]) == [Error(Oops)] by {
      assert [ev][1..] == [];
      assert FilterEvents(pred, [ev]) == FilterEvent(pred, ev) + FilterEvents(pred, []);
    }
    EmitSingle(w, 2, Error(Oops));
    ErrorReachesEveryListener(w, 2, Oops);
    assert ErrorObs([l], Oops) == [Saw(2, Error(Oops))] + [];
    assert ErrorRaises([l], Oops) == [] + [];
  }

  /** A filter that rejects every value, then an error: the error reaches the subscriber. */
  method ErrorThroughFilterScenario() returns (seen: seq<Observation>, raised: seq<Fault>)
    ensures seen == [Saw(2, Error(Oops))] && raised == []
  {
    var reg := FilterSetup(Total(Never), Ignore, CollectErrors);
    ghost var w := reg.State();
    reg.Error(1, Oops);
    FilteredErrorOutcome(w, Total(Never), Error(Oops));
    seen, raised := reg.observed, reg.raises;
  }

  /** A filter predicate that throws, then a value: the fault reaches the subscriber as an error. */
  method ThrowingFilterScenario() returns (seen: seq<Observation>, raised: seq<Fault>)
    ensures seen == [Saw(2, Error(Oops))] && raised == []
  {
    var reg := FilterSetup(Throwing, Ignore, CollectErrors);
    ghost var w := reg.State();
    reg.Next(1, 0);
    FilteredErrorOutcome(w, Throwing, Next(0));
    seen, raised := reg.observed, reg.raises;
  }

  /** Subscribing with a bare function: refused with the "must be an object" error, and no record is added. */
  method FunctionArgumentScenario() returns (r: Result<Unsubscriber>, records: seq<Listener>)
    ensures r.Threw? && r.fault.message == "handlers must be an object"
    ensures records == []
  {
    var reg := new Registry();
    var s := reg.NewStream();
    r := reg.Subscribe(s, Callable);
    records := reg.listeners[s - 1];
  }

  /** The check of the asPromise scenario: values above 1 pass. */
  function AboveOne(v: Value): bool
  {
    v > 1
  }

  /** The calls of the asPromise scenario: values 1, 2, 3, then an error. */
  const BridgeCalls: seq<Event> := [Next(1), Next(2), Next(3), Error(Oops)]

  lemma BridgeTrace()
    ensures FilterEvents(Total(AboveOne), BridgeCalls) == [Next(2), Next(3), Error(Oops)]
    ensures FirstOutcome([Next(2), Next(3), Error(Oops)]) == Resolved(2)
    ensures Faults([Next(3), Error(Oops)]) == [Oops]
  {
    var check := Total(AboveOne);
    var tail3 := [Next(2), Next(3), Error(Oops)];
    var tail2 := [Next(3), Error(Oops)];
    var tail1 := [Error(Oops)];
    assert BridgeCalls[1..] == tail3 && tail3[1..] == tail2 && tail2[1..] == tail1 && tail1[1..] == [];
    assert check(1) == Ok(false) && check(2) == Ok(true) && check(3) == Ok(true);
    assert FilterEvents(check, tail1) == [Error(Oops)] + [];
    assert FilterEvents(check, tail2) == [Next(3)] + FilterEvents(check, tail1);
    assert FilterEvents(check, tail3) == [Next(2)] + FilterEvents(check, tail2);
    assert FilterEvents(check, BridgeCalls) == [] + FilterEvents(check, tail3);
    assert Faults(tail1) == [Oops] + [];
    assert Faults(tail2) == [] + Faults(tail1);
  }

  /** The state right after the first `new Stream()`. */
  const Fresh: World := World(1, [[]], 0, [], [], [])

  /** A stream with an `asPromise` on it whose check passes values above 1. */
  method BridgeSetup() returns (reg: Registry, p: nat)
    ensures fresh(reg) && reg.Valid() && p == 0
    ensures reg.State() == Bridged(Fresh, 1, Total(AboveOne))
  {
    reg := new Registry();
    var s := reg.NewStream();
    assert reg.State() == Fresh;
    p := reg.AsPromise(s, Total(AboveOne));
  }

  /**
   * `asPromise` with a check passing values above 1, then values 1, 2, 3 and an error: the promise
   * resolves with 2, and the later error, which reaches the orphaned
   * filtered stream, is raised.
   */
  method AsPromiseScenario() returns (settled: Settlement, raised: seq<Fault>)
    ensures settled == Resolved(2) && raised == [Oops]
  {
    var reg, p := BridgeSetup();
    var s := 1;
    ghost var b := reg.State();
    Run(reg, s, BridgeCalls);
    AsPromiseSettlesOnFirst(Fresh, 1, Total(AboveOne), BridgeCalls);
    BridgeTrace();
    settled, raised := reg.promises[p], reg.raises;
  }
}
