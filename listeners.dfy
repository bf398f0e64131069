/**
 * Listener records: the `{next, error}` pairs a stream keeps in its
 * `listeners` array, the handler argument `subscribe` accepts, and removal of
 * one record by identity, as the unsubscribe closure does.
 */
module Listeners {
  import opened Events

  /** Stream references are the ids streams receive at construction. */
  type StreamId = nat

  /** What a listener record's `next` handler does when called with a value. */
  datatype NextAction =
    | Ignore                                          // a missing `next` handler does nothing (index.js:73)
    | Record(throws: Value -> Option<Fault>)          // a consumer callback: sees the value, then throws if `throws` says so
    | Forward(target: StreamId)                       // `merge`: relays the value to the merged stream (index.js:90)
    | Test(pred: Value -> Result<bool>, target: StreamId)  // `filter`: relays a value the predicate accepts (index.js:38)
    | Apply(f: Value -> Result<Value>, target: StreamId)   // `map`: relays the transformed value (index.js:47)
    | Resolve(promise: nat)                           // `asPromise`: resolves, then unsubscribes (index.js:56-59)

  /** What a listener record's `error` handler does when called with a fault. */
  datatype ErrorAction =
    | Rethrow                                         // a missing `error` handler rethrows (index.js:74)
    | RecordError(throws: Fault -> Option<Fault>)     // a consumer callback: sees the fault, then throws if `throws` says so
    | ForwardError(target: StreamId)                  // passes the fault to the target's `error` (index.js:98)
    | Reject(promise: nat)                            // `asPromise`: rejects, then unsubscribes (index.js:60-63)

  /** A listener record; `rid` stands for the record's reference identity. */
  datatype Listener = Listener(rid: nat, next: NextAction, error: ErrorAction)

  /** The argument of `subscribe`: a bare function, or an object with optional handlers. */
  datatype HandlersArg =
    | Callable
    | Handlers(next: Option<NextAction>, error: Option<ErrorAction>)

  /** The handler pair `subscribe` stores: a missing `next` ignores values, a missing `error` rethrows. */
  function Normalize(h: HandlersArg): (r: (NextAction, ErrorAction))
    requires h.Handlers?
    ensures h.next.Some? ==> r.0 == h.next.value
    ensures h.next.None? ==> r.0 == Ignore
    ensures h.error.Some? ==> r.1 == h.error.value
    ensures h.error.None? ==> r.1 == Rethrow
  {
    (if h.next.Some? then h.next.value else Ignore,
     if h.error.Some? then h.error.value else Rethrow)
  }

  /** The records of `ls` whose identity is not `rid`, in order (index.js:79). */
  function Remove(ls: seq<Listener>, rid: nat): seq<Listener>
  {
    if |ls| == 0 then []
    else if ls[0].rid == rid then Remove(ls[1..], rid)
    else [ls[0]] + Remove(ls[1..], rid)
  }

  /** Record identities strictly increase along the list (records are appended with fresh identities). */
  ghost predicate Increasing(ls: seq<Listener>)
  {
    forall i, j :: 0 <= i < j < |ls| ==> ls[i].rid < ls[j].rid
  }

  /** `a` is `b` with some records deleted, the rest in the same order. */
  ghost predicate SubSeq(a: seq<Listener>, b: seq<Listener>)
    decreases |b|
  {
    if |a| == 0 then true
    else if |b| == 0 then false
    else if a[0] == b[0] then SubSeq(a[1..], b[1..])
    else SubSeq(a, b[1..])
  }

  ghost function RidSet(ls: seq<Listener>): set<nat>
  {
    set i | 0 <= i < |ls| :: ls[i].rid
  }

  /** Unsubscribing keeps exactly the records with another identity. */
  lemma {:induction false} RemoveMembers(ls: seq<Listener>, rid: nat, l: Listener)
    ensures l in Remove(ls, rid) <==> l in ls && l.rid != rid
  {
    if |ls| > 0 {
      RemoveMembers(ls[1..], rid, l);
      assert ls == [ls[0]] + ls[1..];
    }
  }

  /** Unsubscribing keeps the other records in their relative order. */
  lemma {:induction false} RemoveSubSeq(ls: seq<Listener>, rid: nat)
    ensures SubSeq(Remove(ls, rid), ls)
  {
    if |ls| > 0 {
      RemoveSubSeq(ls[1..], rid);
      if ls[0].rid != rid {
        assert Remove(ls, rid)[1..] == Remove(ls[1..], rid);
      } else {
        SubSeqTail(Remove(ls, rid), ls);
      }
    }
  }

  /** Removing an identity that is not present leaves the list as it is. */
  lemma {:induction false} RemoveAbsent(ls: seq<Listener>, rid: nat)
    requires rid !in RidSet(ls)
    ensures Remove(ls, rid) == ls
  {
    if |ls| > 0 {
      assert ls[0].rid in RidSet(ls);
      assert RidSet(ls[1..]) <= RidSet(ls) by {
        forall x | x in RidSet(ls[1..]) ensures x in RidSet(ls) {
          var i :| 0 <= i < |ls[1..]| && ls[1..][i].rid == x;
          assert ls[i + 1].rid == x;
        }
      }
      RemoveAbsent(ls[1..], rid);
      assert ls == [ls[0]] + ls[1..];
    }
  }

  /** After removal the identity is gone from the list. */
  lemma RemoveGone(ls: seq<Listener>, rid: nat)
    ensures rid !in RidSet(Remove(ls, rid))
  {
    var r := Remove(ls, rid);
    if rid in RidSet(r) {
      var i :| 0 <= i < |r| && r[i].rid == rid;
      RemoveMembers(ls, rid, r[i]);
    }
  }

  /** Calling an unsubscribe closure a second time changes nothing. */
  lemma RemoveIdempotent(ls: seq<Listener>, rid: nat)
    ensures Remove(Remove(ls, rid), rid) == Remove(ls, rid)
  {
    RemoveGone(ls, rid);
    RemoveAbsent(Remove(ls, rid), rid);
  }

  /**
   * With distinct identities, unsubscribing removes exactly the one record
   * that carries the identity and keeps every other record in place.
   */
  lemma {:induction false} RemoveExactlyOne(ls: seq<Listener>, i: nat)
    requires Increasing(ls) && i < |ls|
    ensures Remove(ls, ls[i].rid) == ls[..i] + ls[i + 1..]
  {
    var rid := ls[i].rid;
    if i == 0 {
      forall j | 0 <= j < |ls[1..]| ensures ls[1..][j].rid != rid {
        assert ls[0].rid < ls[j + 1].rid;
      }
      RemoveAbsent(ls[1..], rid);
    } else {
      assert ls[0].rid < rid;
      RemoveExactlyOne(ls[1..], i - 1);
      assert ls[1..][i - 1].rid == rid;
      assert ls[..i] + ls[i + 1..] == [ls[0]] + (ls[1..][..i - 1] + ls[1..][i..]);
    }
  }

  lemma {:induction false} SubSeqTail(a: seq<Listener>, b: seq<Listener>)
    requires |b| > 0 && SubSeq(a, b[1..])
    ensures SubSeq(a, b)
    decreases |b|, 0
  {
    if |a| > 0 && a[0] == b[0] {
      SubSeqDropFirst(a, b[1..]);
    }
  }

  lemma {:induction false} SubSeqDropFirst(a: seq<Listener>, b: seq<Listener>)
    requires |a| > 0 && SubSeq(a, b)
    ensures SubSeq(a[1..], b)
    decreases |b|, 1
  {
    if a[0] == b[0] {
      SubSeqTail(a[1..], b);
    } else {
      SubSeqDropFirst(a, b[1..]);
      SubSeqTail(a[1..], b);
    }
  }

  lemma {:induction false} SubSeqRefl(a: seq<Listener>)
    ensures SubSeq(a, a)
  {
    if |a| > 0 {
      SubSeqRefl(a[1..]);
    }
  }

  lemma {:induction false} SubSeqMembers(a: seq<Listener>, b: seq<Listener>, l: Listener)
    requires SubSeq(a, b) && l in a
    ensures l in b
    decreases |b|
  {
    if a[0] == b[0] {
      if l != a[0] {
        assert l in a[1..];
        SubSeqMembers(a[1..], b[1..], l);
      }
    } else {
      SubSeqMembers(a, b[1..], l);
    }
  }

  lemma {:induction false} SubSeqTrans(a: seq<Listener>, b: seq<Listener>, c: seq<Listener>)
    requires SubSeq(a, b) && SubSeq(b, c)
    ensures SubSeq(a, c)
    decreases |c|
  {
    if |a| > 0 {
      if b[0] == c[0] {
        if a[0] == b[0] {
          SubSeqTrans(a[1..], b[1..], c[1..]);
        } else {
          SubSeqTrans(a, b[1..], c[1..]);
          SubSeqTail(a, c);
        }
      } else {
        SubSeqTrans(a, b, c[1..]);
        SubSeqTail(a, c);
      }
    }
  }

  /** Deleting records keeps identities increasing. */
  lemma {:induction false} SubSeqIncreasing(a: seq<Listener>, b: seq<Listener>)
    requires SubSeq(a, b) && Increasing(b)
    ensures Increasing(a)
    decreases |b|
  {
    if |a| > 0 {
      if a[0] == b[0] {
        SubSeqIncreasing(a[1..], b[1..]);
        forall j | 0 < j < |a| ensures a[0].rid < a[j].rid {
          assert a[j] == a[1..][j - 1];
          SubSeqMembers(a[1..], b[1..], a[j]);
        }
      } else {
        SubSeqIncreasing(a, b[1..]);
      }
    }
  }
}
