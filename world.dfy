/**
 * The whole state the streams of one program share, as a value: the module
 * counter `id`, each stream's `listeners` array, the identities given to
 * listener records, the promises made by `asPromise`, what consumer callbacks
 * have seen, and the raises queued with `setImmediate`.
 */
module Worlds {
  import opened Events
  import opened Listeners

  /** A consumer callback (the record with identity `rid`) was called with `event`. */
  datatype Observation = Saw(rid: nat, event: Event)

  datatype World = World(
    lastId: nat,                     // the module-level `id`: the id of the newest stream
    listeners: seq<seq<Listener>>,   // the `listeners` array of stream k is listeners[k - 1]
    lastRecord: nat,                 // the identity of the newest listener record
    promises: seq<Settlement>,       // promise n was made by the n-th `asPromise` call
    observed: seq<Observation>,      // every call of a consumer callback, in order
    raises: seq<Fault>)              // faults queued to be raised later (index.js:23, 30), in order

  /** The streams constructed so far have ids 1 .. lastId. */
  predicate IsStream(w: World, s: StreamId)
  {
    1 <= s <= w.lastId
  }

  /**
   * A record on stream `s` only forwards to streams constructed after `s`
   * (an operator constructs its downstream stream before attaching to the
   * source) and only settles promises that exist.
   */
  predicate WiredListener(l: Listener, s: StreamId, lastId: nat, promises: nat)
  {
    (match l.next
     case Forward(t) => s < t <= lastId
     case Test(_, t) => s < t <= lastId
     case Apply(_, t) => s < t <= lastId
     case Resolve(p) => p < promises
     case _ => true) &&
    (match l.error
     case ForwardError(t) => s < t <= lastId
     case Reject(p) => p < promises
     case _ => true)
  }

  ghost predicate AllWired(ls: seq<Listener>, s: StreamId, lastId: nat, promises: nat)
  {
    forall i :: 0 <= i < |ls| ==> WiredListener(ls[i], s, lastId, promises)
  }

  /** Every stream has a listener array, and forwarding only goes to younger streams. */
  ghost predicate Wired(w: World)
  {
    |w.listeners| == w.lastId &&
    forall k :: 0 <= k < |w.listeners| ==> AllWired(w.listeners[k], k + 1, w.lastId, |w.promises|)
  }

  /**
   * Listener records have distinct identities: each was issued once, in
   * increasing order along each array, and no record sits on two streams.
   */
  ghost predicate Identified(w: World)
  {
    (forall k, i :: 0 <= k < |w.listeners| && 0 <= i < |w.listeners[k]| ==>
       1 <= w.listeners[k][i].rid <= w.lastRecord) &&
    (forall k :: 0 <= k < |w.listeners| ==> Increasing(w.listeners[k])) &&
    (forall k, j :: 0 <= k < j < |w.listeners| ==> RidSet(w.listeners[k]) !! RidSet(w.listeners[j]))
  }

  /** The identities of all records attached anywhere. */
  ghost function Rids(w: World): set<nat>
  {
    set k, i | 0 <= k < |w.listeners| && 0 <= i < |w.listeners[k]| :: w.listeners[k][i].rid
  }

  /**
   * How dispatch on stream `s` may change the world: no stream or record is
   * created, settled promises stay settled, the logs only grow, arrays only
   * lose records, and streams older than `s` are not touched.
   */
  ghost predicate Evolves(w: World, r: World, s: StreamId)
  {
    r.lastId == w.lastId && r.lastRecord == w.lastRecord &&
    |r.promises| == |w.promises| &&
    (forall p :: 0 <= p < |w.promises| && !w.promises[p].Pending? ==> r.promises[p] == w.promises[p]) &&
    w.observed <= r.observed && w.raises <= r.raises &&
    |r.listeners| == |w.listeners| &&
    (forall k :: 0 <= k < |w.listeners| ==> SubSeq(r.listeners[k], w.listeners[k])) &&
    (forall k :: 0 <= k < |w.listeners| && k + 1 < s ==> r.listeners[k] == w.listeners[k])
  }

  /** Every observation added between `w` and `r` is by a record whose identity is in `ids`. */
  ghost predicate ObservedFrom(w: World, r: World, ids: set<nat>)
  {
    w.observed <= r.observed &&
    forall i :: |w.observed| <= i < |r.observed| ==> r.observed[i].rid in ids
  }

  /** A promise settles at most once: settling a settled promise changes nothing. */
  function Settle(ps: seq<Settlement>, p: nat, outcome: Settlement): (r: seq<Settlement>)
    requires p < |ps|
    ensures |r| == |ps|
    ensures ps[p].Pending? ==> r[p] == outcome
    ensures !ps[p].Pending? ==> r == ps
    ensures forall q :: 0 <= q < |ps| && q != p ==> r[q] == ps[q]
  {
    if ps[p].Pending? then ps[p := outcome] else ps
  }

  /** The unsubscribe closure of record `rid` on stream `s`. */
  function Unsubscribed(w: World, s: StreamId, rid: nat): (r: World)
    requires 1 <= s <= |w.listeners|
    ensures r.lastId == w.lastId && r.lastRecord == w.lastRecord && r.promises == w.promises
    ensures r.observed == w.observed && r.raises == w.raises
    ensures |r.listeners| == |w.listeners|
    ensures forall k :: 0 <= k < |w.listeners| && k != s - 1 ==> r.listeners[k] == w.listeners[k]
  {
    w.(listeners := w.listeners[s - 1 := Remove(w.listeners[s - 1], rid)])
  }

  /** Stream construction: the counter moves on and the new stream has no listeners (index.js:6-9). */
  function Spawn(w: World): (r: World)
    ensures r.lastId == w.lastId + 1 && r.lastRecord == w.lastRecord && r.promises == w.promises
    ensures r.observed == w.observed && r.raises == w.raises
    ensures |r.listeners| == |w.listeners| + 1 && r.listeners[|w.listeners|] == []
    ensures forall k :: 0 <= k < |w.listeners| ==> r.listeners[k] == w.listeners[k]
  {
    w.(lastId := w.lastId + 1, listeners := w.listeners + [[]])
  }

  /** A fresh record with the given handlers appended to the array of stream `s` (index.js:37-40, 46-49, 75-76). */
  function Attach(w: World, s: StreamId, next: NextAction, error: ErrorAction): (r: World)
    requires 1 <= s <= |w.listeners|
    ensures r.lastId == w.lastId && r.lastRecord == w.lastRecord + 1 && r.promises == w.promises
    ensures r.observed == w.observed && r.raises == w.raises
    ensures |r.listeners| == |w.listeners|
    ensures r.listeners[s - 1] == w.listeners[s - 1] + [Listener(r.lastRecord, next, error)]
    ensures forall k :: 0 <= k < |w.listeners| && k != s - 1 ==> r.listeners[k] == w.listeners[k]
  {
    w.(listeners := w.listeners[s - 1 := w.listeners[s - 1] + [Listener(w.lastRecord + 1, next, error)]],
       lastRecord := w.lastRecord + 1)
  }

  lemma EvolvesRefl(w: World, s: StreamId)
    ensures Evolves(w, w, s)
  {
    forall k | 0 <= k < |w.listeners| ensures SubSeq(w.listeners[k], w.listeners[k]) {
      SubSeqRefl(w.listeners[k]);
    }
  }

  lemma EvolvesTrans(w1: World, w2: World, w3: World, s: StreamId)
    requires Evolves(w1, w2, s) && Evolves(w2, w3, s)
    ensures Evolves(w1, w3, s)
  {
    forall k | 0 <= k < |w1.listeners| ensures SubSeq(w3.listeners[k], w1.listeners[k]) {
      SubSeqTrans(w3.listeners[k], w2.listeners[k], w1.listeners[k]);
    }
  }

  lemma SubSeqRids(a: seq<Listener>, b: seq<Listener>)
    requires SubSeq(a, b)
    ensures RidSet(a) <= RidSet(b)
  {
    forall i | 0 <= i < |a| ensures a[i].rid in RidSet(b) {
      SubSeqMembers(a, b, a[i]);
      var j :| 0 <= j < |b| && b[j] == a[i];
    }
  }

  lemma EvolvesRids(w: World, r: World, s: StreamId)
    requires Evolves(w, r, s)
    ensures Rids(r) <= Rids(w)
  {
    forall k, i | 0 <= k < |r.listeners| && 0 <= i < |r.listeners[k]|
      ensures r.listeners[k][i].rid in Rids(w)
    {
      SubSeqMembers(r.listeners[k], w.listeners[k], r.listeners[k][i]);
      var j :| 0 <= j < |w.listeners[k]| && w.listeners[k][j] == r.listeners[k][i];
    }
  }

  lemma ObservedFromTrans(w1: World, w2: World, w3: World, a: set<nat>, b: set<nat>)
    requires ObservedFrom(w1, w2, a) && ObservedFrom(w2, w3, b)
    ensures ObservedFrom(w1, w3, a + b)
  {
  }

  /** Dispatch never breaks the wiring: records only disappear. */
  lemma EvolvesWired(w: World, r: World, s: StreamId)
    requires Wired(w) && Evolves(w, r, s)
    ensures Wired(r)
  {
    forall k, i | 0 <= k < |r.listeners| && 0 <= i < |r.listeners[k]|
      ensures WiredListener(r.listeners[k][i], k + 1, r.lastId, |r.promises|)
    {
      SubSeqMembers(r.listeners[k], w.listeners[k], r.listeners[k][i]);
      var j :| 0 <= j < |w.listeners[k]| && w.listeners[k][j] == r.listeners[k][i];
    }
  }

  /** Dispatch keeps record identities distinct. */
  lemma EvolvesIdentified(w: World, r: World, s: StreamId)
    requires Identified(w) && Evolves(w, r, s)
    ensures Identified(r)
  {
    forall k, i | 0 <= k < |r.listeners| && 0 <= i < |r.listeners[k]|
      ensures 1 <= r.listeners[k][i].rid <= r.lastRecord
    {
      SubSeqMembers(r.listeners[k], w.listeners[k], r.listeners[k][i]);
    }
    forall k | 0 <= k < |r.listeners| ensures Increasing(r.listeners[k]) {
      SubSeqIncreasing(r.listeners[k], w.listeners[k]);
    }
    forall k, j | 0 <= k < j < |r.listeners| ensures RidSet(r.listeners[k]) !! RidSet(r.listeners[j]) {
      SubSeqRids(r.listeners[k], w.listeners[k]);
      SubSeqRids(r.listeners[j], w.listeners[j]);
    }
  }

  /** Unsubscribing is a change dispatch on `s` may make. */
  lemma UnsubscribedEvolves(w: World, s: StreamId, rid: nat)
    requires 1 <= s <= |w.listeners|
    ensures Evolves(w, Unsubscribed(w, s, rid), s)
  {
    EvolvesRefl(w, s);
    RemoveSubSeq(w.listeners[s - 1], rid);
  }

  lemma RidSetInRids(w: World, k: nat)
    requires k < |w.listeners|
    ensures RidSet(w.listeners[k]) <= Rids(w)
  {
  }

  /** A constructed stream is isolated: nothing forwards into it yet. */
  lemma SpawnKeeps(w: World)
    requires Wired(w) && Identified(w)
    ensures Wired(Spawn(w)) && Identified(Spawn(w))
    ensures Spawn(w).listeners[w.lastId] == []
  {
    var r := Spawn(w);
    forall k | 0 <= k < |r.listeners|
      ensures AllWired(r.listeners[k], k + 1, r.lastId, |r.promises|)
    {
      if k < |w.listeners| {
        assert AllWired(w.listeners[k], k + 1, w.lastId, |w.promises|);
      }
    }
  }

  /**
   * Attaching a record keeps the invariants: its identity is newer than any
   * record's, so it is unique and the array stays in increasing order.
   */
  lemma AttachKeeps(w: World, s: StreamId, next: NextAction, error: ErrorAction)
    requires Wired(w) && Identified(w) && IsStream(w, s)
    requires WiredListener(Listener(w.lastRecord + 1, next, error), s, w.lastId, |w.promises|)
    ensures Wired(Attach(w, s, next, error)) && Identified(Attach(w, s, next, error))
  {
    var r := Attach(w, s, next, error);
    var newRid := w.lastRecord + 1;
    assert r.listeners[s - 1] == w.listeners[s - 1] + [Listener(newRid, next, error)];
    assert RidSet(r.listeners[s - 1]) == RidSet(w.listeners[s - 1]) + {newRid} by {
      var ls := w.listeners[s - 1];
      forall i | 0 <= i < |ls| ensures r.listeners[s - 1][i] == ls[i] { }
      assert r.listeners[s - 1][|ls|].rid == newRid;
    }
    forall k | 0 <= k < |w.listeners| ensures newRid !in RidSet(w.listeners[k]) {
      forall i | 0 <= i < |w.listeners[k]| ensures w.listeners[k][i].rid < newRid { }
    }
  }

  /** The invariants do not depend on the logs. */
  lemma LogsIrrelevant(w: World, observed: seq<Observation>, raises: seq<Fault>)
    ensures Wired(w.(observed := observed, raises := raises)) == Wired(w)
    ensures Identified(w.(observed := observed, raises := raises)) == Identified(w)
  {
  }

  /** Settling a promise and removing the settling record keeps the invariants. */
  lemma SettleKeeps(w: World, s: StreamId, p: nat, outcome: Settlement, rid: nat)
    requires Wired(w) && Identified(w) && IsStream(w, s) && p < |w.promises|
    ensures var r := Unsubscribed(w.(promises := Settle(w.promises, p, outcome)), s, rid);
      Wired(r) && Identified(r) && Evolves(w, r, s)
  {
    var w1 := w.(promises := Settle(w.promises, p, outcome));
    var r := Unsubscribed(w1, s, rid);
    EvolvesRefl(w, s);
    UnsubscribedEvolves(w1, s, rid);
    EvolvesTrans(w, w1, r, s);
    EvolvesWired(w, r, s);
    EvolvesIdentified(w, r, s);
  }

  /** Two rounds of log growth are one round with the logs concatenated. */
  lemma Grow(w: World, o1: seq<Observation>, f1: seq<Fault>, o2: seq<Observation>, f2: seq<Fault>)
    ensures w.(observed := w.observed + o1, raises := w.raises + f1).(
              observed := w.observed + o1 + o2, raises := w.raises + f1 + f2) ==
            w.(observed := w.observed + (o1 + o2), raises := w.raises + (f1 + f2))
  {
    assert w.observed + o1 + o2 == w.observed + (o1 + o2);
    assert w.raises + f1 + f2 == w.raises + (f1 + f2);
  }
}
