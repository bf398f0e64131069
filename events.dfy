/**
 * Values, faults and the reference semantics of the stream operators over
 * traces of emissions: what a downstream stream is fed when its source is fed
 * a given sequence of `next`/`error` calls.
 */
module Events {

  /** The values carried by a stream (any JavaScript value; integers here). */
  type Value = int

  /** Anything thrown or passed to `error`; JavaScript errors carry a message. */
  datatype Fault = Fault(message: string)

  datatype Option<T> = None | Some(value: T)

  /** The outcome of calling a user function: it returns a value or throws. */
  datatype Result<T> = Ok(value: T) | Threw(fault: Fault)

  /** One call made on a stream: `next(value)` or `error(fault)`. */
  datatype Event = Next(value: Value) | Error(fault: Fault)

  /** The state of the promise returned by `asPromise`. */
  datatype Settlement = Pending | Resolved(value: Value) | Rejected(fault: Fault)

  /** `next(v)` for every v of `vs`, in order. */
  function Nexts(vs: seq<Value>): (r: seq<Event>)
    ensures |r| == |vs|
    ensures forall i :: 0 <= i < |vs| ==> r[i] == Next(vs[i])
  {
    if |vs| == 0 then [] else [Next(vs[0])] + Nexts(vs[1..])
  }

  /** The values of the `next` calls of `evs`, in order. */
  function Values(evs: seq<Event>): seq<Value>
  {
    if |evs| == 0 then []
    else (if evs[0].Next? then [evs[0].value] else []) + Values(evs[1..])
  }

  /** The values of `vs` that satisfy `p`, in order. */
  function Keep(p: Value -> bool, vs: seq<Value>): seq<Value>
  {
    if |vs| == 0 then []
    else if p(vs[0]) then [vs[0]] + Keep(p, vs[1..])
    else Keep(p, vs[1..])
  }

  /** The faults of the `error` calls of `evs`, in order. */
  function Faults(evs: seq<Event>): seq<Fault>
  {
    if |evs| == 0 then []
    else (if evs[0].Error? then [evs[0].fault] else []) + Faults(evs[1..])
  }

  /**
   * What the stream built by `filter(pred)` is fed for one call on its source:
   * the value when `pred` returns true, nothing when it returns false, the
   * thrown fault as an error when it throws; errors are passed on unchanged.
   */
  function FilterEvent(pred: Value -> Result<bool>, ev: Event): seq<Event>
  {
    match ev
    case Next(v) =>
      (match pred(v)
       case Ok(keep) => if keep then [Next(v)] else []
       case Threw(e) => [Error(e)])
    case Error(e) => [Error(e)]
  }

  function FilterEvents(pred: Value -> Result<bool>, evs: seq<Event>): seq<Event>
  {
    if |evs| == 0 then [] else FilterEvent(pred, evs[0]) + FilterEvents(pred, evs[1..])
  }

  /**
   * What the stream built by `map(f)` is fed for one call on its source: the
   * transformed value, or the fault `f` throws as an error; errors pass unchanged.
   */
  function MapEvent(f: Value -> Result<Value>, ev: Event): seq<Event>
  {
    match ev
    case Next(v) =>
      (match f(v)
       case Ok(u) => [Next(u)]
       case Threw(e) => [Error(e)])
    case Error(e) => [Error(e)]
  }

  function MapEvents(f: Value -> Result<Value>, evs: seq<Event>): seq<Event>
  {
    if |evs| == 0 then [] else MapEvent(f, evs[0]) + MapEvents(f, evs[1..])
  }

  /** How a one-shot promise fed `evs` settles: on the first event, if any. */
  function FirstOutcome(evs: seq<Event>): Settlement
  {
    if |evs| == 0 then Pending
    else match evs[0]
      case Next(v) => Resolved(v)
      case Error(e) => Rejected(e)
  }

  /** The predicate `filter` is given when the user's predicate never throws. */
  function Total(p: Value -> bool): Value -> Result<bool>
  {
    v => Ok(p(v))
  }

  /** The transform `map` is given when the user's function never throws. */
  function TotalMap(f: Value -> Value): Value -> Result<Value>
  {
    v => Ok(f(v))
  }

  lemma {:induction false} KeepMembers(p: Value -> bool, vs: seq<Value>, x: Value)
    ensures x in Keep(p, vs) <==> x in vs && p(x)
  {
    if |vs| > 0 {
      KeepMembers(p, vs[1..], x);
      assert vs == [vs[0]] + vs[1..];
    }
  }

  /**
   * With a predicate that never throws, the filtered stream receives exactly
   * the values satisfying it, in their original order.
   */
  lemma {:induction false} FilterIsKeep(p: Value -> bool, vs: seq<Value>)
    ensures FilterEvents(Total(p), Nexts(vs)) == Nexts(Keep(p, vs))
  {
    if |vs| > 0 {
      FilterIsKeep(p, vs[1..]);
      assert Nexts(vs)[1..] == Nexts(vs[1..]);
    }
  }

  /** With a transform that never throws, the mapped stream receives f(v) for each v, in order. */
  lemma {:induction false} MapIsPointwise(f: Value -> Value, vs: seq<Value>)
    ensures MapEvents(TotalMap(f), Nexts(vs)) == Nexts(seq(|vs|, i requires 0 <= i < |vs| => f(vs[i])))
  {
    if |vs| > 0 {
      MapIsPointwise(f, vs[1..]);
      assert Nexts(vs)[1..] == Nexts(vs[1..]);
      assert seq(|vs|, i requires 0 <= i < |vs| => f(vs[i]))
          == [f(vs[0])] + seq(|vs| - 1, i requires 0 <= i < |vs| - 1 => f(vs[1..][i]));
    }
  }

  /** Errors flow through `filter` and `map` unchanged, whatever the predicate or transform. */
  lemma {:induction false} ErrorsPassThrough(pred: Value -> Result<bool>, f: Value -> Result<Value>, evs: seq<Event>)
    requires forall i :: 0 <= i < |evs| ==> evs[i].Error?
    ensures FilterEvents(pred, evs) == evs
    ensures MapEvents(f, evs) == evs
  {
    if |evs| > 0 {
      ErrorsPassThrough(pred, f, evs[1..]);
      assert evs == [evs[0]] + evs[1..];
    }
  }

  lemma {:induction false} FilterEventsAppend(pred: Value -> Result<bool>, a: seq<Event>, b: seq<Event>)
    ensures FilterEvents(pred, a + b) == FilterEvents(pred, a) + FilterEvents(pred, b)
  {
    if |a| > 0 {
      FilterEventsAppend(pred, a[1..], b);
      assert (a + b)[1..] == a[1..] + b;
    } else {
      assert a + b == b;
    }
  }

  lemma {:induction false} MapEventsAppend(f: Value -> Result<Value>, a: seq<Event>, b: seq<Event>)
    ensures MapEvents(f, a + b) == MapEvents(f, a) + MapEvents(f, b)
  {
    if |a| > 0 {
      MapEventsAppend(f, a[1..], b);
      assert (a + b)[1..] == a[1..] + b;
    } else {
      assert a + b == b;
    }
  }

  lemma FaultsSplit(evs: seq<Event>)
    requires |evs| > 0
    ensures Faults(evs) == Faults([evs[0]]) + Faults(evs[1..])
  {
    assert [evs[0]][1..] == [];
  }

  /** `Values` undoes `Nexts`: the calls `next(v)` carry exactly the values `vs`. */
  lemma {:induction false} ValuesOfNexts(vs: seq<Value>)
    ensures Values(Nexts(vs)) == vs
  {
    if |vs| > 0 {
      ValuesOfNexts(vs[1..]);
      assert Nexts(vs)[1..] == Nexts(vs[1..]);
    }
  }
}
