/**
 * One consumer record on a stream whose other records may be of any kind:
 * relays built by `filter`, `map` and `merge`, the bridge of `asPromise`, or
 * other consumers. Three facts about dispatch carry the argument. The error
 * path never calls a `next` handler. A call on a stream reaches only records
 * on that stream and on younger streams. Only the records of `asPromise`
 * unsubscribe themselves. So a consumer stays attached and is called once
 * for each call on its own stream.
 */
module Consumers {
  import opened Events
  import opened Listeners
  import opened Worlds
  import opened Dispatch
  import opened Properties

  // ----- the observation log, projected on one record -----

  /** What was appended to the observation log between `w` and `r`. */
  function Added(w: World, r: World): seq<Observation>
    requires w.observed <= r.observed
  {
    r.observed[|w.observed|..]
  }

  lemma AddedSplit(w: World, w1: World, r: World)
    requires w.observed <= w1.observed && w1.observed <= r.observed
    ensures Added(w, r) == Added(w, w1) + Added(w1, r)
  {
    assert r.observed == w.observed + Added(w, w1) + Added(w1, r);
  }

  /** The observations in `obs` of record `rid` receiving a value, in order. */
  function ValuesSeenBy(rid: nat, obs: seq<Observation>): seq<Observation>
  {
    if |obs| == 0 then []
    else (if obs[0].rid == rid && obs[0].event.Next? then [obs[0]] else []) + ValuesSeenBy(rid, obs[1..])
  }

  /** The observations in `obs` of record `rid`, values and faults alike, in order. */
  function SeenBy(rid: nat, obs: seq<Observation>): seq<Observation>
  {
    if |obs| == 0 then []
    else (if obs[0].rid == rid then [obs[0]] else []) + SeenBy(rid, obs[1..])
  }

  lemma {:induction false} ValuesSeenByAppend(rid: nat, a: seq<Observation>, b: seq<Observation>)
    ensures ValuesSeenBy(rid, a + b) == ValuesSeenBy(rid, a) + ValuesSeenBy(rid, b)
    decreases |a|
  {
    if |a| > 0 {
      ValuesSeenByAppend(rid, a[1..], b);
      assert (a + b)[1..] == a[1..] + b;
    } else {
      assert a + b == b;
    }
  }

  lemma {:induction false} SeenByAppend(rid: nat, a: seq<Observation>, b: seq<Observation>)
    ensures SeenBy(rid, a + b) == SeenBy(rid, a) + SeenBy(rid, b)
    decreases |a|
  {
    if |a| > 0 {
      SeenByAppend(rid, a[1..], b);
      assert (a + b)[1..] == a[1..] + b;
    } else {
      assert a + b == b;
    }
  }

  /** A log holding nothing by `rid` projects to nothing. */
  lemma {:induction false} NotSeenBy(rid: nat, obs: seq<Observation>)
    requires forall i :: 0 <= i < |obs| ==> obs[i].rid != rid
    ensures SeenBy(rid, obs) == [] && ValuesSeenBy(rid, obs) == []
  {
    if |obs| > 0 {
      NotSeenBy(rid, obs[1..]);
    }
  }

  /** A log of faults holds no value for anyone. */
  lemma {:induction false} NoValuesIn(rid: nat, obs: seq<Observation>)
    requires forall i :: 0 <= i < |obs| ==> obs[i].event.Error?
    ensures ValuesSeenBy(rid, obs) == []
  {
    if |obs| > 0 {
      NoValuesIn(rid, obs[1..]);
    }
  }

  /** One observation projects to itself when it is by `rid`. */
  lemma SeenByOne(rid: nat, o: Observation)
    ensures SeenBy(rid, [o]) == if o.rid == rid then [o] else []
    ensures ValuesSeenBy(rid, [o]) == if o.rid == rid && o.event.Next? then [o] else []
  {
    assert [o][1..] == [];
  }

  /** The observations of `rid` seeing `a` then `b` are those of `a` then those of `b`. */
  lemma {:induction false} SeenAppend(rid: nat, a: seq<Value>, b: seq<Value>)
    ensures Seen(rid, a + b) == Seen(rid, a) + Seen(rid, b)
    decreases |a|
  {
    if |a| > 0 {
      SeenAppend(rid, a[1..], b);
      assert (a + b)[1..] == a[1..] + b;
    } else {
      assert a + b == b;
    }
  }

  // ----- the error path records only faults -----

  /** Every observation added between `w` and `r` is of a fault. */
  ghost predicate OnlyFaults(w: World, r: World)
  {
    w.observed <= r.observed &&
    forall i :: |w.observed| <= i < |r.observed| ==> r.observed[i].event.Error?
  }

  lemma OnlyFaultsTrans(w: World, w1: World, r: World)
    requires OnlyFaults(w, w1) && OnlyFaults(w1, r)
    ensures OnlyFaults(w, r)
  {
    forall i | |w.observed| <= i < |r.observed| ensures r.observed[i].event.Error? {
      if i < |w1.observed| {
        assert r.observed[i] == w1.observed[i];
      }
    }
  }

  /** `error(e)` never calls a `next` handler, whatever the stream holds. */
  lemma {:induction false} ErrorFaultsOnly(w: World, s: StreamId, e: Fault)
    requires Wired(w) && IsStream(w, s)
    ensures OnlyFaults(w, DeliverError(w, s, e))
    decreases w.lastId - s, 0, |w.listeners[s - 1]| + 1
  {
    if |w.listeners[s - 1]| > 0 {
      ErrorEachFaultsOnly(w, s, w.listeners[s - 1], e);
    }
  }

  lemma {:induction false} ErrorEachFaultsOnly(w: World, s: StreamId, ls: seq<Listener>, e: Fault)
    requires Wired(w) && IsStream(w, s) && AllWired(ls, s, w.lastId, |w.promises|)
    ensures OnlyFaults(w, ErrorEach(w, s, ls, e))
    decreases w.lastId - s, 0, |ls|
  {
    if |ls| > 0 {
      ErrorEachUnfold(w, s, ls, e);
      var w1 := ErrorOne(w, s, ls[0], e);
      ErrorOneFaultsOnly(w, s, ls[0], e);
      ErrorEachFaultsOnly(w1, s, ls[1..], e);
      OnlyFaultsTrans(w, w1, ErrorEach(w1, s, ls[1..], e));
    }
  }

  lemma {:induction false} ErrorOneFaultsOnly(w: World, s: StreamId, l: Listener, e: Fault)
    requires Wired(w) && IsStream(w, s) && WiredListener(l, s, w.lastId, |w.promises|)
    ensures OnlyFaults(w, ErrorOne(w, s, l, e))
    decreases w.lastId - s, 0, 0
  {
    if l.error.ForwardError? {
      ErrorFaultsOnly(w, l.error.target, e);
    }
  }

  // ----- a call reaches only its stream and younger ones -----

  /** No record with identity `rid` sits on stream `s` or on a younger stream. */
  ghost predicate AbsentFrom(w: World, s: StreamId, rid: nat)
  {
    forall k, i :: 0 <= k < |w.listeners| && s <= k + 1 && 0 <= i < |w.listeners[k]| ==>
      w.listeners[k][i].rid != rid
  }

  /** Nothing was observed by record `rid` between `w` and `r`. */
  ghost predicate Silent(w: World, r: World, rid: nat)
  {
    w.observed <= r.observed &&
    forall i :: |w.observed| <= i < |r.observed| ==> r.observed[i].rid != rid
  }

  lemma SilentTrans(w: World, w1: World, r: World, rid: nat)
    requires Silent(w, w1, rid) && Silent(w1, r, rid)
    ensures Silent(w, r, rid)
  {
    forall i | |w.observed| <= i < |r.observed| ensures r.observed[i].rid != rid {
      if i < |w1.observed| {
        assert r.observed[i] == w1.observed[i];
      }
    }
  }

  /** Dispatch only removes records, so an absent identity stays absent. */
  lemma EvolvesAbsent(w: World, r: World, s: StreamId, rid: nat)
    requires Evolves(w, r, s) && AbsentFrom(w, s, rid)
    ensures AbsentFrom(r, s, rid)
  {
    forall k, i | 0 <= k < |r.listeners| && s <= k + 1 && 0 <= i < |r.listeners[k]|
      ensures r.listeners[k][i].rid != rid
    {
      SubSeqMembers(r.listeners[k], w.listeners[k], r.listeners[k][i]);
      var j :| 0 <= j < |w.listeners[k]| && w.listeners[k][j] == r.listeners[k][i];
    }
  }

  /** A record on stream `s` sits on no younger stream. */
  lemma YoungerAbsent(w: World, s: StreamId, c: Listener, t: StreamId)
    requires Identified(w) && IsStream(w, s) && |w.listeners| == w.lastId
    requires c in w.listeners[s - 1] && s < t
    ensures AbsentFrom(w, t, c.rid)
  {
    assert c.rid in RidSet(w.listeners[s - 1]);
    forall k, i | 0 <= k < |w.listeners| && t <= k + 1 && 0 <= i < |w.listeners[k]|
      ensures w.listeners[k][i].rid != c.rid
    {
      assert w.listeners[k][i].rid in RidSet(w.listeners[k]);
      assert RidSet(w.listeners[s - 1]) !! RidSet(w.listeners[k]);
    }
  }

  /** `next(v)` on `s` observes nothing by a record that is on neither `s` nor a younger stream. */
  lemma {:induction false} NextSilent(w: World, s: StreamId, v: Value, rid: nat)
    requires Wired(w) && IsStream(w, s) && AbsentFrom(w, s, rid)
    ensures Silent(w, DeliverNext(w, s, v), rid)
    decreases w.lastId - s, 1, |w.listeners[s - 1]| + 1
  {
    NextEachSilent(w, s, w.listeners[s - 1], v, rid);
  }

  lemma {:induction false} NextEachSilent(w: World, s: StreamId, ls: seq<Listener>, v: Value, rid: nat)
    requires Wired(w) && IsStream(w, s) && AllWired(ls, s, w.lastId, |w.promises|) && AbsentFrom(w, s, rid)
    requires forall j :: 0 <= j < |ls| ==> ls[j].rid != rid
    ensures Silent(w, NextEach(w, s, ls, v), rid)
    decreases w.lastId - s, 1, |ls|
  {
    if |ls| > 0 {
      NextEachUnfold(w, s, ls, v);
      var w1 := NextOne(w, s, ls[0], v);
      NextOneSilent(w, s, ls[0], v, rid);
      EvolvesAbsent(w, w1, s, rid);
      NextEachSilent(w1, s, ls[1..], v, rid);
      SilentTrans(w, w1, NextEach(w1, s, ls[1..], v), rid);
    }
  }

  lemma {:induction false} NextOneSilent(w: World, s: StreamId, l: Listener, v: Value, rid: nat)
    requires Wired(w) && IsStream(w, s) && WiredListener(l, s, w.lastId, |w.promises|)
    requires AbsentFrom(w, s, rid) && l.rid != rid
    ensures Silent(w, NextOne(w, s, l, v), rid)
    decreases w.lastId - s, 1, 0
  {
    match l.next
    case Record(throws) =>
      if throws(v).Some? {
        var w1 := w.(observed := w.observed + [Saw(l.rid, Next(v))]);
        ErrorSilent(w1, s, throws(v).value, rid);
        SilentTrans(w, w1, DeliverError(w1, s, throws(v).value), rid);
      }
    case Forward(t) =>
      NextSilent(w, t, v, rid);
    case Test(pred, t) =>
      if pred(v).Threw? {
        ErrorSilent(w, t, pred(v).fault, rid);
      } else if pred(v).value {
        NextSilent(w, t, v, rid);
      }
    case Apply(f, t) =>
      if f(v).Threw? {
        ErrorSilent(w, t, f(v).fault, rid);
      } else {
        NextSilent(w, t, f(v).value, rid);
      }
    case _ =>
  }

  /** `error(e)` on `s` observes nothing by a record that is on neither `s` nor a younger stream. */
  lemma {:induction false} ErrorSilent(w: World, s: StreamId, e: Fault, rid: nat)
    requires Wired(w) && IsStream(w, s) && AbsentFrom(w, s, rid)
    ensures Silent(w, DeliverError(w, s, e), rid)
    decreases w.lastId - s, 0, |w.listeners[s - 1]| + 1
  {
    if |w.listeners[s - 1]| > 0 {
      ErrorEachSilent(w, s, w.listeners[s - 1], e, rid);
    }
  }

  lemma {:induction false} ErrorEachSilent(w: World, s: StreamId, ls: seq<Listener>, e: Fault, rid: nat)
    requires Wired(w) && IsStream(w, s) && AllWired(ls, s, w.lastId, |w.promises|) && AbsentFrom(w, s, rid)
    requires forall j :: 0 <= j < |ls| ==> ls[j].rid != rid
    ensures Silent(w, ErrorEach(w, s, ls, e), rid)
    decreases w.lastId - s, 0, |ls|
  {
    if |ls| > 0 {
      ErrorEachUnfold(w, s, ls, e);
      var w1 := ErrorOne(w, s, ls[0], e);
      ErrorOneSilent(w, s, ls[0], e, rid);
      EvolvesAbsent(w, w1, s, rid);
      ErrorEachSilent(w1, s, ls[1..], e, rid);
      SilentTrans(w, w1, ErrorEach(w1, s, ls[1..], e), rid);
    }
  }

  lemma {:induction false} ErrorOneSilent(w: World, s: StreamId, l: Listener, e: Fault, rid: nat)
    requires Wired(w) && IsStream(w, s) && WiredListener(l, s, w.lastId, |w.promises|)
    requires AbsentFrom(w, s, rid) && l.rid != rid
    ensures Silent(w, ErrorOne(w, s, l, e), rid)
    decreases w.lastId - s, 0, 0
  {
    if l.error.ForwardError? {
      ErrorSilent(w, l.error.target, e, rid);
    }
  }

  // ----- only the records of `asPromise` unsubscribe themselves -----

  /** A record that settles a promise and then removes itself. */
  predicate Settles(l: Listener)
  {
    l.next.Resolve? || l.error.Reject?
  }

  /** Distinct identities: a record with the identity of `c` is `c`. */
  lemma OnlyOneWith(w: World, k: nat, c: Listener, m: nat, j: nat)
    requires Identified(w) && k < |w.listeners| && c in w.listeners[k]
    requires m < |w.listeners| && j < |w.listeners[m]|
    ensures w.listeners[m][j].rid == c.rid ==> w.listeners[m][j] == c
  {
    var i :| 0 <= i < |w.listeners[k]| && w.listeners[k][i] == c;
    assert c.rid in RidSet(w.listeners[k]);
    assert w.listeners[m][j].rid in RidSet(w.listeners[m]);
    if m < k {
      assert RidSet(w.listeners[m]) !! RidSet(w.listeners[k]);
    } else if k < m {
      assert RidSet(w.listeners[k]) !! RidSet(w.listeners[m]);
    }
  }

  /** `next(v)` on any stream leaves a consumer record `c` where it is. */
  lemma {:induction false} NextStays(w: World, s: StreamId, v: Value, c: Listener, k: nat)
    requires Wired(w) && Identified(w) && IsStream(w, s)
    requires k < |w.listeners| && c in w.listeners[k] && Sink(c)
    ensures c in DeliverNext(w, s, v).listeners[k]
    decreases w.lastId - s, 1, |w.listeners[s - 1]| + 1
  {
    var ls := w.listeners[s - 1];
    forall j | 0 <= j < |ls| ensures ls[j].rid == c.rid ==> ls[j] == c {
      OnlyOneWith(w, k, c, s - 1, j);
    }
    NextEachStays(w, s, ls, v, c, k);
  }

  lemma {:induction false} NextEachStays(w: World, s: StreamId, ls: seq<Listener>, v: Value, c: Listener, k: nat)
    requires Wired(w) && Identified(w) && IsStream(w, s) && AllWired(ls, s, w.lastId, |w.promises|)
    requires k < |w.listeners| && c in w.listeners[k] && Sink(c)
    requires forall j :: 0 <= j < |ls| ==> ls[j].rid == c.rid ==> ls[j] == c
    ensures c in NextEach(w, s, ls, v).listeners[k]
    decreases w.lastId - s, 1, |ls|
  {
    if |ls| > 0 {
      NextEachUnfold(w, s, ls, v);
      var w1 := NextOne(w, s, ls[0], v);
      NextOneStays(w, s, ls[0], v, c, k);
      EvolvesIdentified(w, w1, s);
      assert forall j :: 0 <= j < |ls[1..]| ==> ls[1..][j] == ls[j + 1];
      NextEachStays(w1, s, ls[1..], v, c, k);
    }
  }

  lemma {:induction false} NextOneStays(w: World, s: StreamId, l: Listener, v: Value, c: Listener, k: nat)
    requires Wired(w) && Identified(w) && IsStream(w, s) && WiredListener(l, s, w.lastId, |w.promises|)
    requires k < |w.listeners| && c in w.listeners[k] && Sink(c)
    requires l.rid == c.rid ==> l == c
    ensures c in NextOne(w, s, l, v).listeners[k]
    decreases w.lastId - s, 1, 0
  {
    match l.next
    case Record(throws) =>
      if throws(v).Some? {
        var w1 := w.(observed := w.observed + [Saw(l.rid, Next(v))]);
        ErrorStays(w1, s, throws(v).value, c, k);
      }
    case Forward(t) =>
      NextStays(w, t, v, c, k);
    case Test(pred, t) =>
      if pred(v).Threw? {
        ErrorStays(w, t, pred(v).fault, c, k);
      } else if pred(v).value {
        NextStays(w, t, v, c, k);
      }
    case Apply(f, t) =>
      if f(v).Threw? {
        ErrorStays(w, t, f(v).fault, c, k);
      } else {
        NextStays(w, t, f(v).value, c, k);
      }
    case Resolve(p) =>
      RemoveMembers(w.listeners[s - 1], l.rid, c);
    case Ignore =>
  }

  /** `error(e)` on any stream leaves a consumer record `c` where it is. */
  lemma {:induction false} ErrorStays(w: World, s: StreamId, e: Fault, c: Listener, k: nat)
    requires Wired(w) && Identified(w) && IsStream(w, s)
    requires k < |w.listeners| && c in w.listeners[k] && Sink(c)
    ensures c in DeliverError(w, s, e).listeners[k]
    decreases w.lastId - s, 0, |w.listeners[s - 1]| + 1
  {
    var ls := w.listeners[s - 1];
    if |ls| > 0 {
      forall j | 0 <= j < |ls| ensures ls[j].rid == c.rid ==> ls[j] == c {
        OnlyOneWith(w, k, c, s - 1, j);
      }
      ErrorEachStays(w, s, ls, e, c, k);
    }
  }

  lemma {:induction false} ErrorEachStays(w: World, s: StreamId, ls: seq<Listener>, e: Fault, c: Listener, k: nat)
    requires Wired(w) && Identified(w) && IsStream(w, s) && AllWired(ls, s, w.lastId, |w.promises|)
    requires k < |w.listeners| && c in w.listeners[k] && Sink(c)
    requires forall j :: 0 <= j < |ls| ==> ls[j].rid == c.rid ==> ls[j] == c
    ensures c in ErrorEach(w, s, ls, e).listeners[k]
    decreases w.lastId - s, 0, |ls|
  {
    if |ls| > 0 {
      ErrorEachUnfold(w, s, ls, e);
      var w1 := ErrorOne(w, s, ls[0], e);
      ErrorOneStays(w, s, ls[0], e, c, k);
      EvolvesIdentified(w, w1, s);
      assert forall j :: 0 <= j < |ls[1..]| ==> ls[1..][j] == ls[j + 1];
      ErrorEachStays(w1, s, ls[1..], e, c, k);
    }
  }

  lemma {:induction false} ErrorOneStays(w: World, s: StreamId, l: Listener, e: Fault, c: Listener, k: nat)
    requires Wired(w) && Identified(w) && IsStream(w, s) && WiredListener(l, s, w.lastId, |w.promises|)
    requires k < |w.listeners| && c in w.listeners[k] && Sink(c)
    requires l.rid == c.rid ==> l == c
    ensures c in ErrorOne(w, s, l, e).listeners[k]
    decreases w.lastId - s, 0, 0
  {
    match l.error
    case ForwardError(t) =>
      ErrorStays(w, t, e, c, k);
    case Reject(p) =>
      RemoveMembers(w.listeners[s - 1], l.rid, c);
    case _ =>
  }

  // ----- what one consumer sees -----

  /** A snapshot with distinct identities holds `c` at its head or in its rest, never in both. */
  lemma RestOfSnapshot(ls: seq<Listener>, c: Listener)
    requires |ls| > 0 && Increasing(ls) && forall j :: 0 <= j < |ls| ==> ls[j].rid == c.rid ==> ls[j] == c
    ensures Increasing(ls[1..]) && forall j :: 0 <= j < |ls[1..]| ==> ls[1..][j].rid == c.rid ==> ls[1..][j] == c
    ensures c in ls <==> ls[0] == c || c in ls[1..]
    ensures ls[0] == c ==> c !in ls[1..]
  {
    assert forall j :: 0 <= j < |ls[1..]| ==> ls[1..][j] == ls[j + 1];
    assert ls == [ls[0]] + ls[1..];
    if ls[0] == c {
      forall j | 0 <= j < |ls[1..]| ensures ls[1..][j] != c {
        assert ls[0].rid < ls[j + 1].rid;
      }
    }
  }

  /** What the head of a snapshot sees, then what its rest sees: `c` is met once if it is there at all. */
  lemma PickOnce(ls: seq<Listener>, c: Listener, x: seq<Observation>)
    requires |ls| > 0 && Increasing(ls) && forall j :: 0 <= j < |ls| ==> ls[j].rid == c.rid ==> ls[j] == c
    ensures (if ls[0] == c then x else []) + (if c in ls[1..] then x else []) == if c in ls then x else []
  {
    RestOfSnapshot(ls, c);
    if ls[0] == c {
      assert x + [] == x;
    } else {
      assert [] + (if c in ls[1..] then x else []) == if c in ls[1..] then x else [];
    }
  }

  /** A record relaying `next(v)` to a younger stream never reaches a consumer of this stream. */
  lemma RelayPassesBy(w: World, s: StreamId, l: Listener, v: Value, c: Listener)
    requires Wired(w) && Identified(w) && IsStream(w, s) && WiredListener(l, s, w.lastId, |w.promises|)
    requires c in w.listeners[s - 1] && (l.next.Forward? || l.next.Test? || l.next.Apply?)
    ensures SeenBy(c.rid, Added(w, NextOne(w, s, l, v))) == []
    ensures ValuesSeenBy(c.rid, Added(w, NextOne(w, s, l, v))) == []
  {
    var r := NextOne(w, s, l, v);
    var t := l.next.target;
    YoungerAbsent(w, s, c, t);
    match l.next {
      case Forward(_) =>
        NextSilent(w, t, v, c.rid);
      case Test(pred, _) =>
        if pred(v).Threw? {
          ErrorSilent(w, t, pred(v).fault, c.rid);
        } else if pred(v).value {
          NextSilent(w, t, v, c.rid);
        }
      case Apply(f, _) =>
        if f(v).Threw? {
          ErrorSilent(w, t, f(v).fault, c.rid);
        } else {
          NextSilent(w, t, f(v).value, c.rid);
        }
    }
    NotSeenBy(c.rid, Added(w, r));
  }

  /** A consumer's `next` callback sees `v`; a fault it throws is seen only as a fault. */
  lemma RecordSees(w: World, s: StreamId, l: Listener, v: Value, c: Listener)
    requires Wired(w) && IsStream(w, s) && WiredListener(l, s, w.lastId, |w.promises|)
    requires l.next.Record? && (l.rid == c.rid ==> l == c)
    ensures ValuesSeenBy(c.rid, Added(w, NextOne(w, s, l, v))) ==
      if l == c then [Saw(c.rid, Next(v))] else []
  {
    var r := NextOne(w, s, l, v);
    var w1 := w.(observed := w.observed + [Saw(l.rid, Next(v))]);
    assert Added(w, w1) == [Saw(l.rid, Next(v))];
    SeenByOne(c.rid, Saw(l.rid, Next(v)));
    if l.next.throws(v).Some? {
      ErrorFaultsOnly(w1, s, l.next.throws(v).value);
      NoValuesIn(c.rid, Added(w1, r));
      AddedSplit(w, w1, r);
      ValuesSeenByAppend(c.rid, Added(w, w1), Added(w1, r));
    }
  }

  /** One record's `next` handler: only the consumer itself adds a value to what `c` has seen. */
  lemma NextOneSees(w: World, s: StreamId, l: Listener, v: Value, c: Listener)
    requires Wired(w) && Identified(w) && IsStream(w, s) && WiredListener(l, s, w.lastId, |w.promises|)
    requires c in w.listeners[s - 1] && (l.rid == c.rid ==> l == c)
    ensures var r := NextOne(w, s, l, v);
      ValuesSeenBy(c.rid, Added(w, r)) == if l == c && c.next.Record? then [Saw(c.rid, Next(v))] else []
  {
    if l.next.Record? {
      RecordSees(w, s, l, v, c);
    } else if l.next.Forward? || l.next.Test? || l.next.Apply? {
      RelayPassesBy(w, s, l, v, c);
    } else {
      assert Added(w, NextOne(w, s, l, v)) == [];
    }
  }

  /**
   * A pass over the snapshot `ls` of stream `s` is under way, and the
   * consumer `c` is still attached; `ls` holds `c` at most once, and no
   * other record with its identity.
   */
  ghost predicate Pass(w: World, s: StreamId, ls: seq<Listener>, c: Listener)
  {
    Wired(w) && Identified(w) && IsStream(w, s) && AllWired(ls, s, w.lastId, |w.promises|) &&
    c in w.listeners[s - 1] && Sink(c) &&
    Increasing(ls) && forall j :: 0 <= j < |ls| ==> ls[j].rid == c.rid ==> ls[j] == c
  }

  /** The first record of a pass of `next(v)`, and the pass that goes on from there. */
  lemma NextEachStep(w: World, s: StreamId, ls: seq<Listener>, v: Value, c: Listener)
    requires Pass(w, s, ls, c) && |ls| > 0
    ensures var w1 := NextOne(w, s, ls[0], v);
      Pass(w1, s, ls[1..], c) && w.observed <= w1.observed &&
      NextEach(w, s, ls, v) == NextEach(w1, s, ls[1..], v) &&
      ValuesSeenBy(c.rid, Added(w, w1)) == if ls[0] == c && c.next.Record? then [Saw(c.rid, Next(v))] else []
  {
    NextEachUnfold(w, s, ls, v);
    var w1 := NextOne(w, s, ls[0], v);
    NextOneStays(w, s, ls[0], v, c, s - 1);
    EvolvesIdentified(w, w1, s);
    NextOneSees(w, s, ls[0], v, c);
    RestOfSnapshot(ls, c);
  }

  lemma {:induction false} NextEachSees(w: World, s: StreamId, ls: seq<Listener>, v: Value, c: Listener)
    requires Pass(w, s, ls, c)
    ensures ValuesSeenBy(c.rid, Added(w, NextEach(w, s, ls, v))) ==
      if c in ls && c.next.Record? then [Saw(c.rid, Next(v))] else []
    decreases |ls|
  {
    if |ls| == 0 {
      assert Added(w, w) == [];
    } else {
      NextEachStep(w, s, ls, v, c);
      var w1 := NextOne(w, s, ls[0], v);
      var r := NextEach(w1, s, ls[1..], v);
      NextEachSees(w1, s, ls[1..], v, c);
      var saw := if c.next.Record? then [Saw(c.rid, Next(v))] else [];
      AddedSplit(w, w1, r);
      ValuesSeenByAppend(c.rid, Added(w, w1), Added(w1, r));
      PickOnce(ls, c, saw);
    }
  }

  /**
   * One call `next(v)` on a stream holding a consumer `c` among records of
   * any kind: `c` is called with `v` exactly once, if it has a `next`
   * callback, and with no other value; it stays attached.
   */
  lemma NextReachesConsumer(w: World, s: StreamId, c: Listener, v: Value)
    requires Wired(w) && Identified(w) && IsStream(w, s)
    requires c in w.listeners[s - 1] && Sink(c)
    ensures var r := DeliverNext(w, s, v);
      Identified(r) && c in r.listeners[s - 1] &&
      ValuesSeenBy(c.rid, Added(w, r)) == if c.next.Record? then [Saw(c.rid, Next(v))] else []
  {
    var ls := w.listeners[s - 1];
    forall j | 0 <= j < |ls| ensures ls[j].rid == c.rid ==> ls[j] == c {
      OnlyOneWith(w, s - 1, c, s - 1, j);
    }
    NextEachSees(w, s, ls, v, c);
    NextStays(w, s, v, c, s - 1);
    EvolvesIdentified(w, DeliverNext(w, s, v), s);
  }

  lemma ErrorOneSees(w: World, s: StreamId, l: Listener, e: Fault, c: Listener)
    requires Wired(w) && Identified(w) && IsStream(w, s) && WiredListener(l, s, w.lastId, |w.promises|)
    requires c in w.listeners[s - 1] && (l.rid == c.rid ==> l == c)
    ensures var r := ErrorOne(w, s, l, e);
      SeenBy(c.rid, Added(w, r)) == if l == c then ErrorSeen(c, e) else []
  {
    var r := ErrorOne(w, s, l, e);
    match l.error
    case RecordError(throws) =>
      assert Added(w, r) == [Saw(l.rid, Error(e))];
      SeenByOne(c.rid, Saw(l.rid, Error(e)));
    case ForwardError(t) =>
      YoungerAbsent(w, s, c, t);
      ErrorSilent(w, t, e, c.rid);
      NotSeenBy(c.rid, Added(w, r));
    case _ =>
      assert Added(w, r) == [];
  }

  /** The first record of a pass of `error(e)`, and the pass that goes on from there. */
  lemma ErrorEachStep(w: World, s: StreamId, ls: seq<Listener>, e: Fault, c: Listener)
    requires Pass(w, s, ls, c) && |ls| > 0
    ensures var w1 := ErrorOne(w, s, ls[0], e);
      Pass(w1, s, ls[1..], c) && w.observed <= w1.observed &&
      ErrorEach(w, s, ls, e) == ErrorEach(w1, s, ls[1..], e) &&
      SeenBy(c.rid, Added(w, w1)) == if ls[0] == c then ErrorSeen(c, e) else []
  {
    ErrorEachUnfold(w, s, ls, e);
    var w1 := ErrorOne(w, s, ls[0], e);
    ErrorOneStays(w, s, ls[0], e, c, s - 1);
    EvolvesIdentified(w, w1, s);
    ErrorOneSees(w, s, ls[0], e, c);
    RestOfSnapshot(ls, c);
  }

  lemma {:induction false} ErrorEachSees(w: World, s: StreamId, ls: seq<Listener>, e: Fault, c: Listener)
    requires Pass(w, s, ls, c)
    ensures SeenBy(c.rid, Added(w, ErrorEach(w, s, ls, e))) == if c in ls then ErrorSeen(c, e) else []
    decreases |ls|
  {
    if |ls| == 0 {
      assert Added(w, w) == [];
    } else {
      ErrorEachStep(w, s, ls, e, c);
      var w1 := ErrorOne(w, s, ls[0], e);
      var r := ErrorEach(w1, s, ls[1..], e);
      ErrorEachSees(w1, s, ls[1..], e, c);
      AddedSplit(w, w1, r);
      SeenByAppend(c.rid, Added(w, w1), Added(w1, r));
      PickOnce(ls, c, ErrorSeen(c, e));
    }
  }

  /**
   * One call `error(e)` on a stream holding a consumer `c` among records of
   * any kind: a consumer with an error callback is called with `e` exactly
   * once, one without is called with nothing; nothing else is observed by
   * `c`, and it stays attached.
   */
  lemma ErrorReachesConsumer(w: World, s: StreamId, c: Listener, e: Fault)
    requires Wired(w) && Identified(w) && IsStream(w, s)
    requires c in w.listeners[s - 1] && Sink(c)
    ensures var r := DeliverError(w, s, e);
      Identified(r) && c in r.listeners[s - 1] &&
      SeenBy(c.rid, Added(w, r)) == ErrorSeen(c, e)
  {
    var ls := w.listeners[s - 1];
    forall j | 0 <= j < |ls| ensures ls[j].rid == c.rid ==> ls[j] == c {
      OnlyOneWith(w, s - 1, c, s - 1, j);
    }
    ErrorEachSees(w, s, ls, e, c);
    ErrorStays(w, s, e, c, s - 1);
    EvolvesIdentified(w, DeliverError(w, s, e), s);
  }

  /** One call on the stream of consumer `c`: it sees the value of a `next`, and no value for an `error`. */
  lemma DeliverReachesConsumer(w: World, s: StreamId, c: Listener, ev: Event)
    requires Wired(w) && Identified(w) && IsStream(w, s)
    requires c in w.listeners[s - 1] && Sink(c) && c.next.Record?
    ensures var r := Deliver(w, s, ev);
      Identified(r) && c in r.listeners[s - 1] &&
      ValuesSeenBy(c.rid, Added(w, r)) == Seen(c.rid, Values([ev]))
  {
    assert [ev][1..] == [];
    assert Values([ev]) == if ev.Next? then [ev.value] else [];
    if ev.Next? {
      NextReachesConsumer(w, s, c, ev.value);
      assert Seen(c.rid, [ev.value]) == [Saw(c.rid, Next(ev.value))] + [];
    } else {
      var r := DeliverError(w, s, ev.fault);
      ErrorReachesConsumer(w, s, c, ev.fault);
      ErrorFaultsOnly(w, s, ev.fault);
      NoValuesIn(c.rid, Added(w, r));
    }
  }

  /**
   * A subscriber on a stream whose other records may be relays, `asPromise`
   * bridges or consumers that throw: over any run of calls on its stream it
   * is called with exactly the values of the `next` calls, in call order.
   * `error` calls and the faults thrown by handlers add no value, and the
   * subscriber stays attached throughout.
   */
  lemma {:induction false} SubscriberSeesEveryValue(w: World, s: StreamId, c: Listener, evs: seq<Event>)
    requires Wired(w) && Identified(w) && IsStream(w, s)
    requires c in w.listeners[s - 1] && Sink(c) && c.next.Record?
    ensures var r := Emit(w, s, evs);
      Identified(r) && c in r.listeners[s - 1] &&
      ValuesSeenBy(c.rid, Added(w, r)) == Seen(c.rid, Values(evs))
    decreases |evs|
  {
    if |evs| == 0 {
      assert Added(w, w) == [];
    } else {
      EmitUnfold(w, s, evs);
      var w1 := Deliver(w, s, evs[0]);
      var r := Emit(w1, s, evs[1..]);
      DeliverReachesConsumer(w, s, c, evs[0]);
      assert Identified(r) && c in r.listeners[s - 1] &&
        ValuesSeenBy(c.rid, Added(w1, r)) == Seen(c.rid, Values(evs[1..])) by {
        SubscriberSeesEveryValue(w1, s, c, evs[1..]);
      }
      ValuesSplit(c.rid, evs);
      AddedSplit(w, w1, r);
      ValuesSeenByAppend(c.rid, Added(w, w1), Added(w1, r));
    }
  }

  lemma ValuesSplit(rid: nat, evs: seq<Event>)
    requires |evs| > 0
    ensures Seen(rid, Values(evs)) == Seen(rid, Values([evs[0]])) + Seen(rid, Values(evs[1..]))
  {
    assert [evs[0]][1..] == [];
    assert Values(evs) == Values([evs[0]]) + Values(evs[1..]);
    SeenAppend(rid, Values([evs[0]]), Values(evs[1..]));
  }

  /** The run of `next(v)` for each `v` of `vs`: the subscriber sees exactly `vs`, in order. */
  lemma SubscriberSeesEveryNext(w: World, s: StreamId, c: Listener, vs: seq<Value>)
    requires Wired(w) && Identified(w) && IsStream(w, s)
    requires c in w.listeners[s - 1] && Sink(c) && c.next.Record?
    ensures var r := Emit(w, s, Nexts(vs));
      c in r.listeners[s - 1] && ValuesSeenBy(c.rid, Added(w, r)) == Seen(c.rid, vs)
  {
    SubscriberSeesEveryValue(w, s, c, Nexts(vs));
    ValuesOfNexts(vs);
  }
}
