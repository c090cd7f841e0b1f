/** The shared tables that every goroutine of the simulator updates under a lock: the lock table and the
    numbered log of the network, and the counters of cryptographic operations. */
module Recorders {
  import opened Events

  // ---- the lock table

  class Mutex {
    constructor () {}
  }

  /** No two names share a mutex, and none has the global one. */
  ghost predicate Injective(table: map<string, Mutex>, shared: Mutex) {
    && (forall name :: name in table ==> table[name] != shared)
    && forall x, y :: x in table && y in table && x != y ==> table[x] != table[y]
  }

  class LockTable {
    const shared: Mutex
    var connections: map<string, Mutex>

    ghost predicate Valid()
      reads this
    {
      Injective(connections, shared)
    }

    constructor ()
      ensures Valid() && fresh(shared) && connections == map[]
    {
      shared := new Mutex();
      connections := map[];
    }

    /** The lock of this name; a new name gets a lock of its own. Nothing is ever replaced or removed. */
    method GetLock(key: string) returns (lock: Mutex)
      requires Valid()
      modifies this`connections
      ensures Valid()
      ensures connections == old(connections)[key := lock]
      ensures key in old(connections) ==> connections == old(connections)
      ensures key !in old(connections) ==> fresh(lock)
    {
      if key in connections {
        lock := connections[key];
        assert connections == connections[key := lock];
      } else {
        lock := new Mutex();
        connections := connections[key := lock];
      }
    }

    /** The locks of a transfer: one per name, the same for both ends exactly when the ends are the same. */
    method LocksFor(from: string, to: string) returns (fromLock: Mutex, toLock: Mutex)
      requires Valid()
      modifies this`connections
      ensures Valid()
      ensures connections == old(connections)[from := fromLock][to := toLock]
      ensures forall name :: name in old(connections) ==> connections[name] == old(connections)[name]
      ensures fromLock == toLock <==> from == to
      ensures fromLock != shared && toLock != shared
    {
      fromLock := GetLock(from);
      toLock := GetLock(to);
    }
  }

  // ---- the counters

  /** How often each operation occurs in a trace. */
  function Histogram(trace: seq<CryptoEvent>): map<CryptoEvent, nat> {
    map e | e in trace :: multiset(trace)[e]
  }

  function Bump(counts: map<CryptoEvent, nat>, e: CryptoEvent): map<CryptoEvent, nat> {
    counts[e := if e in counts then counts[e] + 1 else 1]
  }

  function CountAll(counts: map<CryptoEvent, nat>, trace: seq<CryptoEvent>): map<CryptoEvent, nat>
    decreases |trace|
  {
    if trace == [] then counts else CountAll(Bump(counts, trace[0]), trace[1..])
  }

  lemma HistogramSnoc(trace: seq<CryptoEvent>, e: CryptoEvent)
    ensures Histogram(trace + [e]) == Bump(Histogram(trace), e)
  {
    var left, right := Histogram(trace + [e]), Bump(Histogram(trace), e);
    assert multiset(trace + [e]) == multiset(trace) + multiset{e};
    assert e !in trace ==> multiset(trace)[e] == 0;
    assert left.Keys == right.Keys;
  }

  /** Counting on gives the histogram of the longer trace. */
  lemma {:induction false} CountAllIsHistogram(before: seq<CryptoEvent>, trace: seq<CryptoEvent>)
    ensures CountAll(Histogram(before), trace) == Histogram(before + trace)
    decreases |trace|
  {
    if trace == [] {
      assert before + trace == before;
    } else {
      HistogramSnoc(before, trace[0]);
      CountAllIsHistogram(before + [trace[0]], trace[1..]);
      assert before + [trace[0]] + trace[1..] == before + trace;
    }
  }

  lemma HistogramForgetsOrder(a: seq<CryptoEvent>, b: seq<CryptoEvent>)
    requires multiset(a) == multiset(b)
    ensures Histogram(a) == Histogram(b)
  {
    assert forall e :: e in a <==> e in multiset(a);
    assert forall e :: e in b <==> e in multiset(b);
  }

  lemma CountFromScratch(trace: seq<CryptoEvent>)
    ensures CountAll(map[], trace) == Histogram(trace)
  {
    assert Histogram([]) == map[];
    CountAllIsHistogram([], trace);
    assert [] + trace == trace;
  }

  /** Two interleavings of the same events leave the same counters. */
  lemma OrderIsIrrelevant(a: seq<CryptoEvent>, b: seq<CryptoEvent>)
    requires multiset(a) == multiset(b)
    ensures CountAll(map[], a) == CountAll(map[], b) == Histogram(a)
  {
    CountFromScratch(a);
    CountFromScratch(b);
    HistogramForgetsOrder(a, b);
  }

  class CryptoCounter {
    var cryptoEvents: map<CryptoEvent, nat>
    ghost var trace: seq<CryptoEvent>

    /** The counters are the histogram of everything recorded so far. */
    ghost predicate Valid()
      reads this
    {
      cryptoEvents == Histogram(trace)
    }

    constructor ()
      ensures Valid() && trace == [] && cryptoEvents == map[]
    {
      cryptoEvents := map[];
      trace := [];
    }

    method RecordCryptoEvent(event: CryptoEvent)
      requires Valid()
      modifies this
      ensures Valid() && trace == old(trace) + [event]
      ensures forall e :: (if e in cryptoEvents then cryptoEvents[e] else 0) ==
                (if e in old(cryptoEvents) then old(cryptoEvents)[e] else 0) + if e == event then 1 else 0
    {
      HistogramSnoc(trace, event);
      if event in cryptoEvents {
        cryptoEvents := cryptoEvents[event := cryptoEvents[event] + 1];
      } else {
        cryptoEvents := cryptoEvents[event := 1];
      }
      trace := trace + [event];
    }
  }
}
