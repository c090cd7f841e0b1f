/** The simulated network. A transfer sends three holders to sleep, one on the lock of the sender, one on
    the lock of the receiver and one on the global lock, and is logged when all three are back. */
module Bandwidth {
  import opened Sums
  import K = Packets

  datatype Lock = Endpoint(name: K.Name) | Global

  /** Where a holder is: waiting for its lock, holding it, or done. */
  datatype Stage = Queued | Held(since: nat) | Released(since: nat, until: nat)

  datatype Holder = Holder(lock: Lock, wait: nat, arrived: nat, stage: Stage)

  datatype Transfer = Transfer(packet: K.Packet, size: nat, start: nat)

  datatype LogEntry = LogEntry(id: nat, transfer: nat, start: nat, end: nat)

  /** Bandwidths in bytes per second; times in milliseconds. */
  datatype Limits = Limits(local: nat, global: nat) {
    ghost predicate Valid() {
      local > 0 && global > 0
    }
  }

  /** Transfer e owns the holders 3e, 3e + 1 and 3e + 2. */
  datatype Network = Network(
    now: nat,
    transfers: seq<Transfer>,
    holders: seq<Holder>,
    log: seq<LogEntry>,
    nextId: nat)

  datatype Action =
    | Begin(packet: K.Packet, size: nat)
    | Acquire(holder: nat)
    | Release(holder: nat)
    | Record(transfer: nat)
    | Advance(delay: nat)

  const EMPTY: Network := Network(0, [], [], [], 1)

  /** The milliseconds a transfer of this size occupies a lock, cut to a whole number. */
  function WaitTime(size: nat, bandwidth: nat): nat
    requires bandwidth > 0
  {
    1000 * size / bandwidth
  }

  function HoldersOf(b: Limits, packet: K.Packet, size: nat, now: nat): seq<Holder>
    requires b.Valid()
  {
    [Holder(Endpoint(packet.from), WaitTime(size, b.local), now, Queued),
     Holder(Endpoint(packet.to), WaitTime(size, b.local), now, Queued),
     Holder(Global, WaitTime(size, b.global), now, Queued)]
  }

  predicate Free(n: Network, lock: Lock) {
    forall h :: 0 <= h < |n.holders| && n.holders[h].lock == lock ==> !n.holders[h].stage.Held?
  }

  predicate Logged(n: Network, transfer: nat) {
    exists i :: 0 <= i < |n.log| && n.log[i].transfer == transfer
  }

  predicate Back(n: Network, transfer: nat) {
    && 3 * transfer + 2 < |n.holders|
    && n.holders[3 * transfer].stage.Released?
    && n.holders[3 * transfer + 1].stage.Released?
    && n.holders[3 * transfer + 2].stage.Released?
  }

  /** A sleep takes at least its time: how late the holder wakes up, and who gets a free lock, is open. */
  predicate Can(n: Network, a: Action) {
    match a
    case Begin(_, _) => true
    case Acquire(h) => h < |n.holders| && n.holders[h].stage.Queued? && Free(n, n.holders[h].lock)
    case Release(h) =>
      && h < |n.holders| && n.holders[h].stage.Held?
      && n.holders[h].stage.since + n.holders[h].wait <= n.now
    case Record(e) => e < |n.transfers| && Back(n, e) && !Logged(n, e)
    case Advance(_) => true
  }

  function Next(b: Limits, n: Network, a: Action): Network
    requires b.Valid() && Can(n, a)
  {
    match a
    case Begin(packet, size) =>
      n.(transfers := n.transfers + [Transfer(packet, size, n.now)],
         holders := n.holders + HoldersOf(b, packet, size, n.now))
    case Acquire(h) => n.(holders := n.holders[h := n.holders[h].(stage := Held(n.now))])
    case Release(h) =>
      n.(holders := n.holders[h := n.holders[h].(stage := Released(n.holders[h].stage.since, n.now))])
    case Record(e) =>
      n.(log := n.log + [LogEntry(n.nextId, e, n.transfers[e].start, n.now)], nextId := n.nextId + 1)
    case Advance(delay) => n.(now := n.now + delay)
  }

  /** Time passes only when no waiting holder could take its lock and nobody would oversleep. */
  predicate Prompt(n: Network, a: Action) {
    match a
    case Advance(delay) =>
      && (forall h :: 0 <= h < |n.holders| && n.holders[h].stage.Queued? ==> !Free(n, n.holders[h].lock))
      && (forall h :: 0 <= h < |n.holders| && n.holders[h].stage.Held? ==>
            n.now + delay <= n.holders[h].stage.since + n.holders[h].wait)
    case _ => true
  }

  // ---- runs

  function Step(b: Limits, n: Network, a: Action): Network
    requires b.Valid()
  {
    if Can(n, a) then Next(b, n, a) else n
  }

  /** The network after the actions; one that cannot happen changes nothing. */
  function After(b: Limits, actions: seq<Action>): Network
    requires b.Valid()
  {
    if actions == [] then EMPTY
    else Step(b, After(b, actions[..|actions| - 1]), actions[|actions| - 1])
  }

  predicate AllPrompt(b: Limits, actions: seq<Action>)
    requires b.Valid()
  {
    actions == [] || (
      var k := |actions| - 1;
      AllPrompt(b, actions[..k]) && Prompt(After(b, actions[..k]), actions[k]))
  }

  // ---- sums over the holders of a lock

  /** What is added up: every wait, the waits that are over, or the time still to be slept. */
  datatype Measure = Requested | Done | Remaining(now: nat)

  function Weight(m: Measure, lock: Lock, h: Holder): nat {
    if h.lock != lock then 0
    else
      match m
      case Requested => h.wait
      case Done => if h.stage.Released? then h.wait else 0
      case Remaining(now) =>
        match h.stage
        case Queued => h.wait
        case Held(since) => if now <= since + h.wait then since + h.wait - now else 0
        case Released(_, _) => 0
  }

  function Weights(m: Measure, lock: Lock, hs: seq<Holder>): (ws: seq<int>)
    ensures |ws| == |hs| && forall i :: 0 <= i < |hs| ==> ws[i] == Weight(m, lock, hs[i])
  {
    seq(|hs|, i requires 0 <= i < |hs| => Weight(m, lock, hs[i]))
  }

  function Total(m: Measure, lock: Lock, hs: seq<Holder>): nat {
    SumNonNegative(Weights(m, lock, hs));
    Sum(Weights(m, lock, hs))
  }

  lemma TotalUpdate(m: Measure, lock: Lock, hs: seq<Holder>, i: nat, h: Holder)
    requires i < |hs|
    ensures Total(m, lock, hs[i := h]) == Total(m, lock, hs) - Weight(m, lock, hs[i]) + Weight(m, lock, h)
  {
    assert Weights(m, lock, hs[i := h]) == Weights(m, lock, hs)[i := Weight(m, lock, h)];
    SumUpdate(Weights(m, lock, hs), i, Weight(m, lock, h));
  }

  lemma TotalAppend(m: Measure, lock: Lock, hs: seq<Holder>, more: seq<Holder>)
    ensures Total(m, lock, hs + more) == Total(m, lock, hs) + Total(m, lock, more)
  {
    assert Weights(m, lock, hs + more) == Weights(m, lock, hs) + Weights(m, lock, more);
    SumAppend(Weights(m, lock, hs), Weights(m, lock, more));
  }

  lemma TotalCons(m: Measure, lock: Lock, hs: seq<Holder>)
    requires hs != []
    ensures Total(m, lock, hs) == Weight(m, lock, hs[0]) + Total(m, lock, hs[1..])
  {
    assert Weights(m, lock, hs)[1..] == Weights(m, lock, hs[1..]);
  }

  lemma TotalOfThree(m: Measure, lock: Lock, x: Holder, y: Holder, z: Holder)
    ensures Total(m, lock, [x, y, z]) == Weight(m, lock, x) + Weight(m, lock, y) + Weight(m, lock, z)
  {
    assert [x, y, z][1..] == [y, z] && [y, z][1..] == [z] && [z][1..] == [];
    TotalCons(m, lock, [x, y, z]);
    TotalCons(m, lock, [y, z]);
    TotalCons(m, lock, [z]);
  }

  /** Whatever is queued now weighs the same in every measure but Done. */
  lemma NewHolders(b: Limits, m: Measure, lock: Lock, n: Network, a: Action)
    requires b.Valid() && a.Begin?
    ensures var hs := HoldersOf(b, a.packet, a.size, n.now);
      && Next(b, n, a).holders == n.holders + hs
      && Total(m, lock, n.holders + hs) == Total(m, lock, n.holders) + Total(m, lock, hs)
      && Total(m, lock, hs) == if m.Done? then 0 else Total(Requested, lock, hs)
  {
    var hs := HoldersOf(b, a.packet, a.size, n.now);
    TotalAppend(m, lock, n.holders, hs);
    TotalOfThree(m, lock, hs[0], hs[1], hs[2]);
    TotalOfThree(Requested, lock, hs[0], hs[1], hs[2]);
  }

  // ---- mutual exclusion and the lower bound, for every schedule

  /** Two holders never hold one lock at the same time. */
  ghost predicate Apart(x: Holder, y: Holder) {
    match (x.stage, y.stage)
    case (Held(_), Held(_)) => false
    case (Held(since), Released(_, until)) => until <= since
    case (Released(_, until), Held(since)) => until <= since
    case (Released(s0, u0), Released(s1, u1)) => u0 <= s1 || u1 <= s0
    case _ => true
  }

  ghost predicate Disjoint(n: Network) {
    forall g, h :: 0 <= g < h < |n.holders| && n.holders[g].lock == n.holders[h].lock ==>
      Apart(n.holders[g], n.holders[h])
  }

  ghost predicate Slept(n: Network, h: Holder) {
    && h.arrived <= n.now
    && match h.stage
       case Queued => true
       case Held(since) => h.arrived <= since <= n.now
       case Released(since, until) => h.arrived <= since && since + h.wait <= until <= n.now
  }

  ghost predicate AllSlept(n: Network) {
    forall h :: 0 <= h < |n.holders| ==> Slept(n, n.holders[h])
  }

  ghost predicate ReleasedAfter(h: Holder, lock: Lock, time: nat) {
    h.lock == lock && h.stage.Released? && time <= h.stage.until
  }

  /** The finished waits of a lock fit before its current holder took it, and before its last release. */
  ghost predicate Fits(n: Network, lock: Lock) {
    var done := Total(Done, lock, n.holders);
    && (done == 0 || exists h :: 0 <= h < |n.holders| && ReleasedAfter(n.holders[h], lock, done))
    && forall h :: 0 <= h < |n.holders| && n.holders[h].lock == lock && n.holders[h].stage.Held? ==>
         done <= n.holders[h].stage.since
  }

  lemma StepKeepsSleep(b: Limits, n: Network, a: Action)
    requires b.Valid() && Can(n, a) && AllSlept(n)
    ensures AllSlept(Next(b, n, a))
  {
    var n' := Next(b, n, a);
    forall h | 0 <= h < |n'.holders| ensures Slept(n', n'.holders[h]) {
      if h < |n.holders| { assert Slept(n, n.holders[h]); }
    }
  }

  lemma StepKeepsDisjoint(b: Limits, n: Network, a: Action)
    requires b.Valid() && Can(n, a) && AllSlept(n) && Disjoint(n)
    ensures Disjoint(Next(b, n, a))
  {
    var n' := Next(b, n, a);
    forall g, h | 0 <= g < h < |n'.holders| && n'.holders[g].lock == n'.holders[h].lock
      ensures Apart(n'.holders[g], n'.holders[h])
    {
      if h < |n.holders| {
        assert Apart(n.holders[g], n.holders[h]);
        assert Slept(n, n.holders[g]) && Slept(n, n.holders[h]);
      }
    }
  }

  lemma OnlyHolder(n: Network, h: nat)
    requires Disjoint(n) && h < |n.holders| && n.holders[h].stage.Held?
    ensures forall g :: 0 <= g < |n.holders| && g != h && n.holders[g].lock == n.holders[h].lock ==>
              !n.holders[g].stage.Held?
  {
    forall g | 0 <= g < |n.holders| && g != h && n.holders[g].lock == n.holders[h].lock
      ensures !n.holders[g].stage.Held?
    {
      if g < h {
        assert Apart(n.holders[g], n.holders[h]);
      } else {
        assert Apart(n.holders[h], n.holders[g]);
      }
    }
  }

  lemma BeginKeepsFit(b: Limits, n: Network, a: Action, lock: Lock)
    requires b.Valid() && a.Begin? && Fits(n, lock)
    ensures Fits(Next(b, n, a), lock)
  {
    var n' := Next(b, n, a);
    NewHolders(b, Done, lock, n, a);
    if h :| 0 <= h < |n.holders| && ReleasedAfter(n.holders[h], lock, Total(Done, lock, n.holders)) {
      assert n'.holders[h] == n.holders[h];
    }
  }

  lemma AcquireKeepsFit(b: Limits, n: Network, h: nat, lock: Lock)
    requires b.Valid() && Can(n, Acquire(h)) && AllSlept(n) && Fits(n, lock)
    ensures Fits(Next(b, n, Acquire(h)), lock)
  {
    var n' := Next(b, n, Acquire(h));
    TotalUpdate(Done, lock, n.holders, h, n'.holders[h]);
    if r :| 0 <= r < |n.holders| && ReleasedAfter(n.holders[r], lock, Total(Done, lock, n.holders)) {
      assert n'.holders[r] == n.holders[r] && Slept(n, n.holders[r]);
    }
  }

  lemma ReleaseKeepsFit(b: Limits, n: Network, h: nat, lock: Lock)
    requires b.Valid() && Can(n, Release(h)) && Disjoint(n) && Fits(n, lock)
    ensures Fits(Next(b, n, Release(h)), lock)
  {
    var n' := Next(b, n, Release(h));
    TotalUpdate(Done, lock, n.holders, h, n'.holders[h]);
    OnlyHolder(n, h);
    if n.holders[h].lock == lock {
      assert n'.holders[h].stage.Released?;
    } else if r :| 0 <= r < |n.holders| && ReleasedAfter(n.holders[r], lock, Total(Done, lock, n.holders)) {
      assert n'.holders[r] == n.holders[r];
    }
  }

  lemma StepKeepsFit(b: Limits, n: Network, a: Action, lock: Lock)
    requires b.Valid() && Can(n, a) && AllSlept(n) && Disjoint(n) && Fits(n, lock)
    ensures Fits(Next(b, n, a), lock)
  {
    match a {
      case Begin(_, _) => BeginKeepsFit(b, n, a, lock);
      case Acquire(h) => AcquireKeepsFit(b, n, h, lock);
      case Release(h) => ReleaseKeepsFit(b, n, h, lock);
      case Record(_) =>
      case Advance(_) =>
    }
  }

  // ---- the upper bound, for prompt schedules

  predicate Pending(n: Network, lock: Lock) {
    exists h :: 0 <= h < |n.holders| && n.holders[h].lock == lock && !n.holders[h].stage.Released?
  }

  /** No request for the lock came later than last. */
  ghost predicate LastArrival(n: Network, lock: Lock, last: nat) {
    forall h :: 0 <= h < |n.holders| && n.holders[h].lock == lock ==> n.holders[h].arrived <= last
  }

  ghost predicate NoOversleep(n: Network, lock: Lock, delay: nat) {
    forall h :: 0 <= h < |n.holders| && n.holders[h].lock == lock && n.holders[h].stage.Held? ==>
      n.now + delay <= n.holders[h].stage.since + n.holders[h].wait
  }

  predicate SomeHeld(hs: seq<Holder>, lock: Lock) {
    exists h :: 0 <= h < |hs| && hs[h].lock == lock && hs[h].stage.Held?
  }

  /** Nobody oversleeps; the lock has no more to do than it was asked to; and while somebody needs it, the
      work that is left ends within the requested time after the last request. */
  ghost predicate Busy(n: Network, lock: Lock, last: nat) {
    var left, asked := Total(Remaining(n.now), lock, n.holders), Total(Requested, lock, n.holders);
    && NoOversleep(n, lock, 0)
    && left <= asked
    && (Pending(n, lock) ==> n.now + left <= last + asked)
    && forall h :: 0 <= h < |n.holders| && n.holders[h].lock == lock && n.holders[h].stage.Released? ==>
         n.holders[h].stage.until <= last + asked
  }

  /** While one holder sleeps on the lock, and nobody oversleeps, the time left shrinks with the clock. */
  lemma {:induction false} RemainingAdvances(lock: Lock, hs: seq<Holder>, now: nat, delay: nat)
    requires forall g, h :: 0 <= g < h < |hs| && hs[g].lock == hs[h].lock ==> Apart(hs[g], hs[h])
    requires forall h :: 0 <= h < |hs| && hs[h].lock == lock && hs[h].stage.Held? ==>
               now + delay <= hs[h].stage.since + hs[h].wait
    ensures Total(Remaining(now), lock, hs) ==
              Total(Remaining(now + delay), lock, hs) + if SomeHeld(hs, lock) then delay else 0
  {
    if hs != [] {
      var rest := hs[1..];
      assert forall h :: 0 <= h < |rest| ==> rest[h] == hs[h + 1];
      RemainingAdvances(lock, rest, now, delay);
      TotalCons(Remaining(now), lock, hs);
      TotalCons(Remaining(now + delay), lock, hs);
      if hs[0].lock == lock && hs[0].stage.Held? {
        forall h | 0 <= h < |rest| && rest[h].lock == lock ensures !rest[h].stage.Held? {
          assert Apart(hs[0], hs[h + 1]);
        }
      } else if h :| 0 <= h < |hs| && hs[h].lock == lock && hs[h].stage.Held? {
        assert rest[h - 1].stage.Held?;
      }
    }
  }

  lemma BeginKeepsBusy(b: Limits, n: Network, a: Action, lock: Lock, last: nat)
    requires b.Valid() && a.Begin? && Busy(n, lock, last) && LastArrival(Next(b, n, a), lock, last)
    ensures Busy(Next(b, n, a), lock, last)
  {
    var n' := Next(b, n, a);
    var hs := HoldersOf(b, a.packet, a.size, n.now);
    NewHolders(b, Requested, lock, n, a);
    NewHolders(b, Remaining(n.now), lock, n, a);
    if h :| 0 <= h < 3 && hs[h].lock == lock {
      assert n'.holders[|n.holders| + h] == hs[h];
      assert n.now <= last;
    } else if h :| 0 <= h < |n'.holders| && n'.holders[h].lock == lock && !n'.holders[h].stage.Released? {
      assert h < |n.holders| && n.holders[h] == n'.holders[h];
    }
  }

  lemma AcquireKeepsBusy(b: Limits, n: Network, h: nat, lock: Lock, last: nat)
    requires b.Valid() && Can(n, Acquire(h)) && Busy(n, lock, last)
    ensures Busy(Next(b, n, Acquire(h)), lock, last)
  {
    var n' := Next(b, n, Acquire(h));
    TotalUpdate(Requested, lock, n.holders, h, n'.holders[h]);
    TotalUpdate(Remaining(n.now), lock, n.holders, h, n'.holders[h]);
    if Pending(n', lock) {
      var p :| 0 <= p < |n'.holders| && n'.holders[p].lock == lock && !n'.holders[p].stage.Released?;
      assert n.holders[p].lock == lock && !n.holders[p].stage.Released?;
    }
  }

  lemma ReleaseKeepsBusy(b: Limits, n: Network, h: nat, lock: Lock, last: nat)
    requires b.Valid() && Can(n, Release(h)) && Busy(n, lock, last)
    ensures Busy(Next(b, n, Release(h)), lock, last)
  {
    var n' := Next(b, n, Release(h));
    TotalUpdate(Requested, lock, n.holders, h, n'.holders[h]);
    TotalUpdate(Remaining(n.now), lock, n.holders, h, n'.holders[h]);
    if Pending(n', lock) {
      var p :| 0 <= p < |n'.holders| && n'.holders[p].lock == lock && !n'.holders[p].stage.Released?;
      assert n.holders[p].lock == lock && !n.holders[p].stage.Released?;
    }
    if n.holders[h].lock == lock {
      assert Pending(n, lock);
    }
  }

  lemma AdvanceKeepsBusy(b: Limits, n: Network, delay: nat, lock: Lock, last: nat)
    requires b.Valid() && Prompt(n, Advance(delay)) && Disjoint(n) && Busy(n, lock, last)
    ensures Busy(Next(b, n, Advance(delay)), lock, last)
  {
    var n' := Next(b, n, Advance(delay));
    RemainingAdvances(lock, n.holders, n.now, delay);
    if Pending(n', lock) {
      var p :| 0 <= p < |n.holders| && n.holders[p].lock == lock && !n.holders[p].stage.Released?;
      if n.holders[p].stage.Queued? {
        assert !Free(n, lock);
      }
      assert SomeHeld(n.holders, lock);
    }
  }

  lemma StepKeepsBusy(b: Limits, n: Network, a: Action, lock: Lock, last: nat)
    requires b.Valid() && Can(n, a) && Prompt(n, a) && Disjoint(n) && Busy(n, lock, last)
    requires LastArrival(Next(b, n, a), lock, last)
    ensures Busy(Next(b, n, a), lock, last)
  {
    match a {
      case Begin(_, _) => BeginKeepsBusy(b, n, a, lock, last);
      case Acquire(h) => AcquireKeepsBusy(b, n, h, lock, last);
      case Release(h) => ReleaseKeepsBusy(b, n, h, lock, last);
      case Record(_) =>
      case Advance(delay) => AdvanceKeepsBusy(b, n, delay, lock, last);
    }
  }

  // ---- who owns which holder, and the log

  ghost predicate SentBy(h: Holder, lock: Lock, wait: nat, t: Transfer) {
    h.lock == lock && h.wait == wait && h.arrived == t.start
  }

  ghost predicate Owns(b: Limits, n: Network, e: nat)
    requires b.Valid() && e < |n.transfers| && |n.holders| == 3 * |n.transfers|
  {
    var t := n.transfers[e];
    && SentBy(n.holders[3 * e], Endpoint(t.packet.from), WaitTime(t.size, b.local), t)
    && SentBy(n.holders[3 * e + 1], Endpoint(t.packet.to), WaitTime(t.size, b.local), t)
    && SentBy(n.holders[3 * e + 2], Global, WaitTime(t.size, b.global), t)
  }

  ghost predicate Layout(b: Limits, n: Network)
    requires b.Valid()
  {
    && |n.holders| == 3 * |n.transfers|
    && forall e :: 0 <= e < |n.transfers| ==> Owns(b, n, e)
  }

  lemma StepKeepsLayout(b: Limits, n: Network, a: Action)
    requires b.Valid() && Can(n, a) && Layout(b, n)
    ensures Layout(b, Next(b, n, a))
  {
    var n' := Next(b, n, a);
    forall e | 0 <= e < |n'.transfers| ensures Owns(b, n', e) {
      if e < |n.transfers| {
        assert Owns(b, n, e);
      } else {
        assert n'.holders[3 * e..] == HoldersOf(b, a.packet, a.size, n.now);
      }
    }
  }

  /** The entries are numbered from 1 without a gap, one per transfer at most, each written when the three
      holders of its transfer were back. */
  ghost predicate LogHolds(n: Network) {
    && n.nextId == |n.log| + 1
    && (forall i :: 0 <= i < |n.log| ==> EntryHolds(n, i))
    && (forall i, j :: 0 <= i < j < |n.log| ==> n.log[i].transfer != n.log[j].transfer)
  }

  ghost predicate EntryHolds(n: Network, i: nat)
    requires i < |n.log|
  {
    var x := n.log[i];
    && x.id == i + 1
    && x.transfer < |n.transfers|
    && x.start == n.transfers[x.transfer].start
    && Back(n, x.transfer)
    && n.holders[3 * x.transfer].stage.until <= x.end
    && n.holders[3 * x.transfer + 1].stage.until <= x.end
    && n.holders[3 * x.transfer + 2].stage.until <= x.end
  }

  lemma StepKeepsLog(b: Limits, n: Network, a: Action)
    requires b.Valid() && Can(n, a) && AllSlept(n) && LogHolds(n)
    ensures LogHolds(Next(b, n, a))
  {
    var n' := Next(b, n, a);
    forall i | 0 <= i < |n'.log| ensures EntryHolds(n', i) {
      if i < |n.log| {
        assert EntryHolds(n, i);
        OldEntryHolds(b, n, a, i);
      } else {
        NewEntryHolds(b, n, a.transfer);
      }
    }
  }

  lemma OldEntryHolds(b: Limits, n: Network, a: Action, i: nat)
    requires b.Valid() && Can(n, a) && i < |n.log| && EntryHolds(n, i)
    ensures i < |Next(b, n, a).log| && EntryHolds(Next(b, n, a), i)
  {
  }

  lemma NewEntryHolds(b: Limits, n: Network, e: nat)
    requires b.Valid() && Can(n, Record(e)) && AllSlept(n) && n.nextId == |n.log| + 1
    ensures EntryHolds(Next(b, n, Record(e)), |n.log|)
  {
    assert Slept(n, n.holders[3 * e]) && Slept(n, n.holders[3 * e + 1]) && Slept(n, n.holders[3 * e + 2]);
  }

  // ---- the theorems

  ghost predicate Good(b: Limits, n: Network)
    requires b.Valid()
  {
    AllSlept(n) && Disjoint(n) && Layout(b, n) && LogHolds(n)
  }

  lemma {:induction false} RunIsGood(b: Limits, actions: seq<Action>)
    requires b.Valid()
    ensures Good(b, After(b, actions))
  {
    if actions != [] {
      var n, a := After(b, actions[..|actions| - 1]), actions[|actions| - 1];
      RunIsGood(b, actions[..|actions| - 1]);
      if Can(n, a) {
        StepKeepsSleep(b, n, a);
        StepKeepsDisjoint(b, n, a);
        StepKeepsLayout(b, n, a);
        StepKeepsLog(b, n, a);
      }
    }
  }

  lemma {:induction false} RunFits(b: Limits, actions: seq<Action>, lock: Lock)
    requires b.Valid()
    ensures Fits(After(b, actions), lock)
  {
    if actions != [] {
      var n, a := After(b, actions[..|actions| - 1]), actions[|actions| - 1];
      RunFits(b, actions[..|actions| - 1], lock);
      RunIsGood(b, actions[..|actions| - 1]);
      if Can(n, a) {
        StepKeepsFit(b, n, a, lock);
      }
    }
  }

  lemma {:induction false} RunIsBusy(b: Limits, actions: seq<Action>, lock: Lock, last: nat)
    requires b.Valid() && AllPrompt(b, actions) && LastArrival(After(b, actions), lock, last)
    ensures Busy(After(b, actions), lock, last)
  {
    if actions != [] {
      var n, a := After(b, actions[..|actions| - 1]), actions[|actions| - 1];
      RunIsGood(b, actions[..|actions| - 1]);
      var n' := Step(b, n, a);
      assert LastArrival(n, lock, last) by {
        assert forall h :: 0 <= h < |n.holders| ==>
          n.holders[h].arrived == n'.holders[h].arrived && n.holders[h].lock == n'.holders[h].lock;
      }
      RunIsBusy(b, actions[..|actions| - 1], lock, last);
      if Can(n, a) {
        StepKeepsBusy(b, n, a, lock, last);
      }
    }
  }

  /** What a transfer asks of a lock: floor(1000 * size / bandwidth) milliseconds, on the global lock always, on
      an endpoint's lock once for every end of the transfer that it is. */
  function Share(b: Limits, lock: Lock, t: Transfer): nat
    requires b.Valid()
  {
    match lock
    case Global => WaitTime(t.size, b.global)
    case Endpoint(name) =>
      (if t.packet.from == name then WaitTime(t.size, b.local) else 0)
      + (if t.packet.to == name then WaitTime(t.size, b.local) else 0)
  }

  function Demand(b: Limits, lock: Lock, ts: seq<Transfer>): nat
    requires b.Valid()
  {
    if ts == [] then 0 else Demand(b, lock, ts[..|ts| - 1]) + Share(b, lock, ts[|ts| - 1])
  }

  lemma ShareIsRequested(b: Limits, lock: Lock, n: Network, k: nat)
    requires b.Valid() && k < |n.transfers| && |n.holders| == 3 * |n.transfers| == 3 * k + 3 && Owns(b, n, k)
    ensures Total(Requested, lock, n.holders)
         == Total(Requested, lock, n.holders[..3 * k]) + Share(b, lock, n.transfers[k])
  {
    var x, y, z := n.holders[3 * k], n.holders[3 * k + 1], n.holders[3 * k + 2];
    assert n.holders == n.holders[..3 * k] + [x, y, z];
    TotalAppend(Requested, lock, n.holders[..3 * k], [x, y, z]);
    TotalOfThree(Requested, lock, x, y, z);
  }

  lemma {:induction false} DemandIsRequested(b: Limits, lock: Lock, n: Network)
    requires b.Valid() && Layout(b, n)
    ensures Demand(b, lock, n.transfers) == Total(Requested, lock, n.holders)
    decreases |n.transfers|
  {
    if n.transfers != [] {
      var k := |n.transfers| - 1;
      var rest := n.(transfers := n.transfers[..k], holders := n.holders[..3 * k]);
      forall e | 0 <= e < k ensures Owns(b, rest, e) {
        assert Owns(b, n, e);
      }
      DemandIsRequested(b, lock, rest);
      assert Owns(b, n, k);
      ShareIsRequested(b, lock, n, k);
    }
  }

  /** Two holders of one lock never overlap, in any schedule. */
  lemma HoldsAreDisjoint(b: Limits, actions: seq<Action>, g: nat, h: nat)
    requires b.Valid()
    requires var hs := After(b, actions).holders;
      && g < |hs| && h < |hs| && g != h && hs[g].lock == hs[h].lock
    ensures var x, y := After(b, actions).holders[g].stage, After(b, actions).holders[h].stage;
      && !(x.Held? && y.Held?)
      && (x.Released? && y.Released? ==> x.until <= y.since || y.until <= x.since)
      && (x.Released? && y.Held? ==> x.until <= y.since)
  {
    RunIsGood(b, actions);
    var hs := After(b, actions).holders;
    assert if g < h then Apart(hs[g], hs[h]) else Apart(hs[h], hs[g]);
  }

  /** In every schedule, a lock that has served all its transfers was released last no earlier than the sum
      of their waits; so no run is shorter than the demand on the global lock or on any endpoint. */
  lemma LowerBound(b: Limits, actions: seq<Action>, lock: Lock)
    requires b.Valid() && !Pending(After(b, actions), lock)
    ensures var n := After(b, actions);
      && Demand(b, lock, n.transfers) <= n.now
      && (Demand(b, lock, n.transfers) > 0 ==>
            exists h :: 0 <= h < |n.holders| && ReleasedAfter(n.holders[h], lock, Demand(b, lock, n.transfers)))
  {
    var n := After(b, actions);
    RunIsGood(b, actions);
    RunFits(b, actions, lock);
    DemandIsRequested(b, lock, n);
    AllDone(lock, n.holders);
    if h :| 0 <= h < |n.holders| && ReleasedAfter(n.holders[h], lock, Demand(b, lock, n.transfers)) {
      assert Slept(n, n.holders[h]);
    }
  }

  lemma {:induction false} AllDone(lock: Lock, hs: seq<Holder>)
    requires forall h :: 0 <= h < |hs| && hs[h].lock == lock ==> hs[h].stage.Released?
    ensures Total(Done, lock, hs) == Total(Requested, lock, hs)
  {
    if hs != [] {
      AllDone(lock, hs[1..]);
      TotalCons(Done, lock, hs);
      TotalCons(Requested, lock, hs);
    }
  }

  /** In every prompt schedule a lock is released last no later than its last request plus the sum of the
      waits; and while it is needed, the clock has not passed that point. */
  lemma UpperBound(b: Limits, actions: seq<Action>, lock: Lock, last: nat, h: nat)
    requires b.Valid() && AllPrompt(b, actions) && LastArrival(After(b, actions), lock, last)
    requires h < |After(b, actions).holders| && After(b, actions).holders[h].lock == lock
    ensures var n := After(b, actions);
      match n.holders[h].stage
      case Released(_, until) => until <= last + Demand(b, lock, n.transfers)
      case _ => n.now <= last + Demand(b, lock, n.transfers)
  {
    RunIsGood(b, actions);
    RunIsBusy(b, actions, lock, last);
    DemandIsRequested(b, lock, After(b, actions));
    if !After(b, actions).holders[h].stage.Released? {
      assert Pending(After(b, actions), lock);
    }
  }

  /** The bounds meet: when all requests arrive at once, a prompt lock is released last exactly after the
      sum of the waits. */
  lemma BoundsMeet(b: Limits, actions: seq<Action>, lock: Lock) returns (h: nat)
    requires b.Valid() && AllPrompt(b, actions) && LastArrival(After(b, actions), lock, 0)
    requires !Pending(After(b, actions), lock) && Demand(b, lock, After(b, actions).transfers) > 0
    ensures var n := After(b, actions);
      && h < |n.holders| && n.holders[h].lock == lock && n.holders[h].stage.Released?
      && n.holders[h].stage.until == Demand(b, lock, n.transfers)
      && forall g :: 0 <= g < |n.holders| && n.holders[g].lock == lock ==>
           n.holders[g].stage.Released? && n.holders[g].stage.until <= n.holders[h].stage.until
  {
    var n := After(b, actions);
    LowerBound(b, actions, lock);
    h :| 0 <= h < |n.holders| && ReleasedAfter(n.holders[h], lock, Demand(b, lock, n.transfers));
    forall g | 0 <= g < |n.holders| && n.holders[g].lock == lock
      ensures n.holders[g].stage.Released? && n.holders[g].stage.until <= Demand(b, lock, n.transfers)
    {
      UpperBound(b, actions, lock, 0, g);
    }
  }

  /** The log: ids 1, 2, 3 and so on in order, no transfer twice, and no entry shorter than the longer of
      its two waits. */
  lemma LogIsFaithful(b: Limits, actions: seq<Action>, i: nat, j: nat)
    requires b.Valid() && i < |After(b, actions).log| && j < |After(b, actions).log|
    ensures var n := After(b, actions);
      && n.log[i].id == i + 1 && n.nextId == |n.log| + 1
      && (i != j ==> n.log[i].transfer != n.log[j].transfer)
      && n.log[i].transfer < |n.transfers|
      && var t := n.transfers[n.log[i].transfer];
      && n.log[i].start == t.start
      && n.log[i].end >= t.start + WaitTime(t.size, b.local)
      && n.log[i].end >= t.start + WaitTime(t.size, b.global)
  {
    var n := After(b, actions);
    RunIsGood(b, actions);
    assert EntryHolds(n, i) && Owns(b, n, n.log[i].transfer);
    var e := n.log[i].transfer;
    assert Slept(n, n.holders[3 * e]) && Slept(n, n.holders[3 * e + 2]);
    assert i != j ==> n.log[if i < j then i else j].transfer != n.log[if i < j then j else i].transfer;
  }

  function LoggedTransfers(n: Network): seq<nat> {
    seq(|n.log|, i requires 0 <= i < |n.log| => n.log[i].transfer)
  }

  lemma LogIsDistinct(n: Network)
    requires LogHolds(n)
    ensures DistinctBelow(LoggedTransfers(n), |n.transfers|)
  {
    forall k | 0 <= k < |n.log| ensures LoggedTransfers(n)[k] < |n.transfers| {
      assert EntryHolds(n, k);
    }
  }

  lemma LogIsOrdered(b: Limits, actions: seq<Action>)
    requires b.Valid()
    ensures var n := After(b, actions);
      DistinctBelow(LoggedTransfers(n), |n.transfers|) && forall i :: 0 <= i < |n.log| ==> n.log[i].id == i + 1
  {
    RunIsGood(b, actions);
    LogIsDistinct(After(b, actions));
    forall i | 0 <= i < |After(b, actions).log| ensures After(b, actions).log[i].id == i + 1 {
      LogIsFaithful(b, actions, i, i);
    }
  }

  /** Once every transfer is logged, every holder has given its lock back. */
  lemma AllReleased(b: Limits, actions: seq<Action>, h: nat)
    requires b.Valid() && |After(b, actions).log| == |After(b, actions).transfers| && h < |After(b, actions).holders|
    ensures After(b, actions).holders[h].stage.Released?
  {
    var n := After(b, actions);
    RunIsGood(b, actions);
    var transfers := LoggedTransfers(n);
    LogIsDistinct(n);
    LogBound(transfers, |n.transfers|);
    assert h / 3 in transfers;
    var i :| 0 <= i < |transfers| && transfers[i] == h / 3;
    assert EntryHolds(n, i);
  }

  /** Once every transfer is logged no lock is needed any more: the whole run then takes at least the demand
      on the global lock, and at least that on the lock of every endpoint. */
  lemma RunTakesItsDemand(b: Limits, actions: seq<Action>, name: K.Name)
    requires b.Valid() && |After(b, actions).log| == |After(b, actions).transfers|
    ensures var n := After(b, actions);
      && Demand(b, Global, n.transfers) <= n.now
      && Demand(b, Endpoint(name), n.transfers) <= n.now
  {
    forall h | 0 <= h < |After(b, actions).holders| ensures After(b, actions).holders[h].stage.Released? {
      AllReleased(b, actions, h);
    }
    LowerBound(b, actions, Global);
    LowerBound(b, actions, Endpoint(name));
  }

  /** A network with a transfer that is not logged is never stuck: somebody can take a lock, give one back or
      be logged, or else a holder is asleep and time may pass promptly. */
  lemma NeverStuck(b: Limits, actions: seq<Action>) returns (a: Action)
    requires b.Valid() && |After(b, actions).log| < |After(b, actions).transfers|
    ensures Can(After(b, actions), a) && Prompt(After(b, actions), a)
    ensures a.Acquire? || a.Release? || a.Record? || a == Advance(1)
    ensures a.Advance? ==>
              exists h :: 0 <= h < |After(b, actions).holders| && After(b, actions).holders[h].stage.Held?
  {
    var n := After(b, actions);
    RunIsGood(b, actions);
    if h :| 0 <= h < |n.holders| && n.holders[h].stage.Queued? && Free(n, n.holders[h].lock) {
      a := Acquire(h);
    } else if h :| 0 <= h < |n.holders| && Can(n, Release(h)) {
      a := Release(h);
    } else if h :| 0 <= h < |n.holders| && n.holders[h].stage.Held? {
      a := Advance(1);
      assert forall g :: 0 <= g < |n.holders| && n.holders[g].stage.Held? ==> !Can(n, Release(g));
    } else {
      var e := Unlogged(n);
      assert forall h :: 0 <= h < |n.holders| && n.holders[h].stage.Queued? ==> Free(n, n.holders[h].lock);
      a := Record(e);
    }
  }

  lemma Unlogged(n: Network) returns (e: nat)
    requires LogHolds(n) && |n.log| < |n.transfers|
    ensures e < |n.transfers| && !Logged(n, e)
  {
    var transfers := LoggedTransfers(n);
    LogIsDistinct(n);
    LogBound(transfers, |n.transfers|);
    e :| 0 <= e < |n.transfers| && e !in transfers;
    assert forall i :: 0 <= i < |n.log| ==> transfers[i] == n.log[i].transfer;
  }

  // ---- a network for every traffic

  lemma AfterSnoc(b: Limits, actions: seq<Action>, a: Action)
    requires b.Valid()
    ensures After(b, actions + [a]) == Step(b, After(b, actions), a)
  {
    assert (actions + [a])[..|actions|] == actions;
  }

  ghost predicate NobodyHolds(n: Network) {
    forall h :: 0 <= h < |n.holders| ==> !n.holders[h].stage.Held?
  }

  /** Only holder h and the clock have changed. */
  ghost predicate OnlyServed(n: Network, n': Network, h: nat)
    requires h < |n.holders|
  {
    && n'.transfers == n.transfers && n'.log == n.log && n'.nextId == n.nextId
    && |n'.holders| == |n.holders| && n'.holders[h].stage.Released?
    && forall g :: 0 <= g < |n.holders| && g != h ==> n'.holders[g] == n.holders[g]
  }

  lemma ServedOnce(b: Limits, n: Network, h: nat)
    requires b.Valid() && h < |n.holders| && n.holders[h].stage.Queued? && NobodyHolds(n)
    ensures var n' := Step(b, Step(b, Step(b, n, Acquire(h)), Advance(n.holders[h].wait)), Release(h));
      OnlyServed(n, n', h) && NobodyHolds(n')
  {
    var n1 := Step(b, n, Acquire(h));
    assert n1 == Next(b, n, Acquire(h));
    var n2 := Step(b, n1, Advance(n.holders[h].wait));
    assert n2.holders == n1.holders && Can(n2, Release(h));
  }

  /** A holder takes its lock, sleeps and gives it back while nobody else holds one. */
  lemma ServeHolder(b: Limits, actions: seq<Action>, h: nat) returns (more: seq<Action>)
    requires b.Valid() && h < |After(b, actions).holders|
    requires After(b, actions).holders[h].stage.Queued? && NobodyHolds(After(b, actions))
    ensures OnlyServed(After(b, actions), After(b, more), h) && NobodyHolds(After(b, more))
  {
    var n := After(b, actions);
    var wait := n.holders[h].wait;
    more := actions + [Acquire(h)] + [Advance(wait)] + [Release(h)];
    AfterSnoc(b, actions, Acquire(h));
    AfterSnoc(b, actions + [Acquire(h)], Advance(wait));
    AfterSnoc(b, actions + [Acquire(h)] + [Advance(wait)], Release(h));
    ServedOnce(b, n, h);
  }

  /** Nothing is under way and everything is logged. */
  ghost predicate AtRest(n: Network) {
    |n.log| == |n.transfers| && forall h :: 0 <= h < |n.holders| ==> n.holders[h].stage.Released?
  }

  lemma RecordLast(b: Limits, actions: seq<Action>, e: nat)
    requires b.Valid()
    requires var n := After(b, actions);
      |n.transfers| == e + 1 && |n.log| == e && |n.holders| == 3 * (e + 1) && Back(n, e) && !Logged(n, e)
    requires forall h :: 0 <= h < |After(b, actions).holders| ==> After(b, actions).holders[h].stage.Released?
    ensures AtRest(After(b, actions + [Record(e)]))
    ensures After(b, actions + [Record(e)]).transfers == After(b, actions).transfers
  {
    AfterSnoc(b, actions, Record(e));
  }

  lemma StartTransfer(b: Limits, actions: seq<Action>, packet: K.Packet, size: nat)
    requires b.Valid() && AtRest(After(b, actions))
    ensures var n, n' := After(b, actions), After(b, actions + [Begin(packet, size)]);
      var e := |n.transfers|;
      && |n'.transfers| == e + 1 && n'.transfers[..e] == n.transfers
      && n'.transfers[e].packet == packet && n'.transfers[e].size == size
      && |n'.holders| == 3 * e + 3 && |n'.log| == e && !Logged(n', e) && NobodyHolds(n')
      && (forall k :: 3 * e <= k < 3 * e + 3 ==> n'.holders[k].stage.Queued?)
      && (forall k :: 0 <= k < 3 * e ==> n'.holders[k].stage.Released?)
  {
    var n := After(b, actions);
    RunIsGood(b, actions);
    AfterSnoc(b, actions, Begin(packet, size));
    forall i | 0 <= i < |n.log| ensures n.log[i].transfer < |n.transfers| {
      assert EntryHolds(n, i);
    }
  }

  /** One more transfer, from start to log. */
  lemma CarryOne(b: Limits, actions: seq<Action>, packet: K.Packet, size: nat) returns (more: seq<Action>)
    requires b.Valid() && AtRest(After(b, actions))
    ensures AtRest(After(b, more))
    ensures var ts := After(b, actions).transfers;
      var ts' := After(b, more).transfers;
      |ts'| == |ts| + 1 && ts'[..|ts|] == ts && ts'[|ts|].packet == packet && ts'[|ts|].size == size
  {
    var e := |After(b, actions).transfers|;
    StartTransfer(b, actions, packet, size);
    var a1 := ServeHolder(b, actions + [Begin(packet, size)], 3 * e);
    var a2 := ServeHolder(b, a1, 3 * e + 1);
    var a3 := ServeHolder(b, a2, 3 * e + 2);
    LogsAgree(After(b, actions + [Begin(packet, size)]), After(b, a3), e);
    RecordLast(b, a3, e);
    more := a3 + [Record(e)];
  }

  lemma LogsAgree(n: Network, n': Network, e: nat)
    requires n.log == n'.log && !Logged(n, e)
    ensures !Logged(n', e)
  {
    assert forall i :: 0 <= i < |n'.log| ==> n'.log[i] == n.log[i];
  }
}
