/** How long a whole simulation lasts: its traffic in closed form, sent over the simulated network. */
module Duration {
  import opened Arithmetic
  import opened Bags
  import opened Sums
  import opened Events
  import opened Protocol
  import opened Runs
  import opened Theorems
  import opened Traffic
  import K = Packets
  import B = Bandwidth

  function Sent(transfers: seq<B.Transfer>): (packets: seq<K.Packet>)
    ensures |packets| == |transfers|
    ensures forall i :: 0 <= i < |packets| ==> packets[i] == transfers[i].packet
  {
    seq(|transfers|, i requires 0 <= i < |transfers| => transfers[i].packet)
  }

  /** The network has carried exactly these packets, in any order. */
  ghost predicate Carried(transfers: seq<B.Transfer>, packets: seq<K.Packet>) {
    multiset(Sent(transfers)) == multiset(packets)
  }

  /** Bytes of a certificate, of a non-revocation request, and of a handle. */
  const CERTIFICATE := 734
  const REQUEST := 1 + 2 * 32 + CERTIFICATE
  const HANDLE := 3 * (1 + 2 * 32) + 4 * 32

  /** No object is smaller than the least of its kind; requests and handles have a fixed size. */
  ghost predicate Sized(transfers: seq<B.Transfer>, least: Object -> nat) {
    forall i :: 0 <= i < |transfers| ==>
      var t := transfers[i];
      && t.size >= least(t.packet.what)
      && (t.packet.what.NonRevocationRequest? ==> t.size == REQUEST)
      && (t.packet.what.NonRevocationHandle? ==> t.size == HANDLE)
  }

  // ---- counts do not depend on the order

  lemma {:induction false} CountWithout(ps: seq<K.Packet>, i: nat, o: Object)
    requires i < |ps|
    ensures CountOf(ps, o) == CountOf(ps[..i] + ps[i + 1..], o) + One(ps[i].what == o)
  {
    assert ps == ps[..i] + [ps[i]] + ps[i + 1..];
    CountConcat(ps[..i] + [ps[i]], ps[i + 1..], o);
    CountConcat(ps[..i], [ps[i]], o);
    CountConcat(ps[..i], ps[i + 1..], o);
    assert [ps[i]][..0] == [];
  }

  lemma SameCount(ps: seq<K.Packet>, qs: seq<K.Packet>, i: nat, o: Object)
    requires ps != [] && i < |qs| && qs[i] == ps[0] && CountOf(ps[1..], o) == CountOf(qs[..i] + qs[i + 1..], o)
    ensures CountOf(ps, o) == CountOf(qs, o)
  {
    CountWithout(ps, 0, o);
    CountWithout(qs, i, o);
    assert ps[..0] + ps[1..] == ps[1..];
  }

  lemma {:induction false} CountIsOrderless(ps: seq<K.Packet>, qs: seq<K.Packet>, o: Object)
    requires multiset(ps) == multiset(qs)
    ensures CountOf(ps, o) == CountOf(qs, o)
    decreases |ps|
  {
    if ps == [] {
      assert |multiset(qs)| == 0;
    } else {
      assert ps[0] in multiset(qs);
      var i :| 0 <= i < |qs| && qs[i] == ps[0];
      RemoveHead(ps, qs, i);
      CountIsOrderless(ps[1..], qs[..i] + qs[i + 1..], o);
      SameCount(ps, qs, i, o);
    }
  }

  // ---- the demand of a set of packets

  /** Milliseconds that this many transfers of a kind hold the global lock, at least. */
  function KindTime(b: B.Limits, least: Object -> nat, count: nat, o: Object): nat
    requires b.Valid()
  {
    count * B.WaitTime(least(o), b.global)
  }

  function PacketsTime(b: B.Limits, least: Object -> nat, ps: seq<K.Packet>): nat
    requires b.Valid()
  {
    KindTime(b, least, CountOf(ps, Nonce), Nonce)
    + KindTime(b, least, CountOf(ps, CredRequest), CredRequest)
    + KindTime(b, least, CountOf(ps, Credentials), Credentials)
    + KindTime(b, least, CountOf(ps, TransactionProposal), TransactionProposal)
    + KindTime(b, least, CountOf(ps, Endorsement), Endorsement)
    + KindTime(b, least, CountOf(ps, Object.Transaction), Object.Transaction)
    + KindTime(b, least, CountOf(ps, NonRevocationRequest), NonRevocationRequest)
    + KindTime(b, least, CountOf(ps, NonRevocationHandle), NonRevocationHandle)
  }

  /** The same for a whole simulation, from the closed-form number of its transfers. */
  function SimulationTime(c: Config, b: B.Limits, least: Object -> nat): nat
    requires b.Valid()
  {
    KindTime(b, least, TransferBudget(c, Nonce), Nonce)
    + KindTime(b, least, TransferBudget(c, CredRequest), CredRequest)
    + KindTime(b, least, TransferBudget(c, Credentials), Credentials)
    + KindTime(b, least, TransferBudget(c, TransactionProposal), TransactionProposal)
    + KindTime(b, least, TransferBudget(c, Endorsement), Endorsement)
    + KindTime(b, least, TransferBudget(c, Object.Transaction), Object.Transaction)
    + KindTime(b, least, TransferBudget(c, NonRevocationRequest), NonRevocationRequest)
    + KindTime(b, least, TransferBudget(c, NonRevocationHandle), NonRevocationHandle)
  }

  lemma WaitGrows(x: nat, y: nat, bandwidth: nat)
    requires bandwidth > 0 && x <= y
    ensures B.WaitTime(x, bandwidth) <= B.WaitTime(y, bandwidth)
  {
    Quotients(1000 * x, 1000 * y, bandwidth);
  }

  lemma KindStep(b: B.Limits, least: Object -> nat, count: nat, hit: bool, o: Object)
    requires b.Valid()
    ensures KindTime(b, least, count + One(hit), o) ==
              KindTime(b, least, count, o) + if hit then B.WaitTime(least(o), b.global) else 0
  {
    var w := B.WaitTime(least(o), b.global);
    assert (count + 1) * w == count * w + w;
  }

  /** One more packet adds the time of its kind. */
  lemma PacketStep(b: B.Limits, least: Object -> nat, ps: seq<K.Packet>, packet: K.Packet)
    requires b.Valid()
    ensures PacketsTime(b, least, ps + [packet]) == PacketsTime(b, least, ps) + B.WaitTime(least(packet.what), b.global)
  {
    var more := ps + [packet];
    assert more[..|more| - 1] == ps;
    KindStep(b, least, CountOf(ps, Nonce), packet.what == Nonce, Nonce);
    KindStep(b, least, CountOf(ps, CredRequest), packet.what == CredRequest, CredRequest);
    KindStep(b, least, CountOf(ps, Credentials), packet.what == Credentials, Credentials);
    KindStep(b, least, CountOf(ps, TransactionProposal), packet.what == TransactionProposal, TransactionProposal);
    KindStep(b, least, CountOf(ps, Endorsement), packet.what == Endorsement, Endorsement);
    KindStep(b, least, CountOf(ps, Object.Transaction), packet.what == Object.Transaction, Object.Transaction);
    KindStep(b, least, CountOf(ps, NonRevocationRequest), packet.what == NonRevocationRequest, NonRevocationRequest);
    KindStep(b, least, CountOf(ps, NonRevocationHandle), packet.what == NonRevocationHandle, NonRevocationHandle);
  }

  lemma {:induction false} GlobalDemand(b: B.Limits, least: Object -> nat, ts: seq<B.Transfer>)
    requires b.Valid() && Sized(ts, least)
    ensures B.Demand(b, B.Global, ts) >= PacketsTime(b, least, Sent(ts))
  {
    if ts != [] {
      var front, t := ts[..|ts| - 1], ts[|ts| - 1];
      GlobalDemand(b, least, front);
      assert Sent(ts) == Sent(front) + [t.packet];
      PacketStep(b, least, Sent(front), t.packet);
      WaitGrows(least(t.packet.what), t.size, b.global);
    }
  }

  /** No object is larger than the greatest of its kind. */
  ghost predicate Capped(transfers: seq<B.Transfer>, most: Object -> nat) {
    forall i :: 0 <= i < |transfers| ==> transfers[i].size <= most(transfers[i].packet.what)
  }

  lemma {:induction false} CappedDemand(b: B.Limits, most: Object -> nat, ts: seq<B.Transfer>)
    requires b.Valid() && Capped(ts, most)
    ensures B.Demand(b, B.Global, ts) <= PacketsTime(b, most, Sent(ts))
  {
    if ts != [] {
      var front, t := ts[..|ts| - 1], ts[|ts| - 1];
      CappedDemand(b, most, front);
      assert Sent(ts) == Sent(front) + [t.packet];
      PacketStep(b, most, Sent(front), t.packet);
      WaitGrows(t.size, most(t.packet.what), b.global);
    }
  }

  /** The waits of revocation traffic on the lock of user 0. */
  function RevocationTime(b: B.Limits, requests: nat, handles: nat): nat
    requires b.Valid()
  {
    requests * B.WaitTime(REQUEST, b.local) + handles * B.WaitTime(HANDLE, b.local)
  }

  lemma RevocationStep(b: B.Limits, requests: nat, handles: nat, what: Object)
    requires b.Valid()
    ensures RevocationTime(b, requests + One(what == NonRevocationRequest), handles + One(what == NonRevocationHandle))
         == RevocationTime(b, requests, handles)
            + RevocationShare(b, what)
  {
    var x, y := B.WaitTime(REQUEST, b.local), B.WaitTime(HANDLE, b.local);
    assert (requests + 1) * x == requests * x + x && (handles + 1) * y == handles * y + y;
  }

  /** What one packet of revocation traffic adds. */
  function RevocationShare(b: B.Limits, what: Object): nat
    requires b.Valid()
  {
    if what == NonRevocationRequest then B.WaitTime(REQUEST, b.local)
    else if what == NonRevocationHandle then B.WaitTime(HANDLE, b.local)
    else 0
  }

  function RevocationLoad(b: B.Limits, ps: seq<K.Packet>): nat
    requires b.Valid()
  {
    RevocationTime(b, CountOf(ps, NonRevocationRequest), CountOf(ps, NonRevocationHandle))
  }

  lemma LoadStep(b: B.Limits, ps: seq<K.Packet>, packet: K.Packet)
    requires b.Valid()
    ensures RevocationLoad(b, ps + [packet]) == RevocationLoad(b, ps) + RevocationShare(b, packet.what)
  {
    var more := ps + [packet];
    assert more[..|more| - 1] == ps;
    RevocationStep(b, CountOf(ps, NonRevocationRequest), CountOf(ps, NonRevocationHandle), packet.what);
  }

  lemma ShareOfUserZero(b: B.Limits, least: Object -> nat, ts: seq<B.Transfer>, i: nat)
    requires b.Valid() && Sized(ts, least) && FromOrToUserZero(Sent(ts)) && i < |ts|
    ensures B.Share(b, B.Endpoint(K.User(0)), ts[i]) >= RevocationShare(b, ts[i].packet.what)
  {
    assert Sent(ts)[i] == ts[i].packet;
  }

  lemma {:induction false} UserZeroDemand(b: B.Limits, least: Object -> nat, ts: seq<B.Transfer>)
    requires b.Valid() && Sized(ts, least) && FromOrToUserZero(Sent(ts))
    ensures B.Demand(b, B.Endpoint(K.User(0)), ts) >= RevocationLoad(b, Sent(ts))
  {
    if ts != [] {
      var front, t := ts[..|ts| - 1], ts[|ts| - 1];
      assert Sent(ts) == Sent(front) + [t.packet];
      FrontOfTraffic(Sent(front), t.packet);
      UserZeroDemand(b, least, front);
      LoadStep(b, Sent(front), t.packet);
      ShareOfUserZero(b, least, ts, |ts| - 1);
    }
  }

  lemma FrontOfTraffic(ps: seq<K.Packet>, packet: K.Packet)
    requires FromOrToUserZero(ps + [packet])
    ensures FromOrToUserZero(ps)
  {
    assert forall i :: 0 <= i < |ps| ==> ps[i] == (ps + [packet])[i];
  }

  // ---- the theorems

  /** A simulation that finished, and a network that has logged exactly its traffic. */
  ghost predicate CarriedOut(c: Config, issuer: nat -> nat, run: Run, b: B.Limits, actions: seq<B.Action>,
                             least: Object -> nat)
  {
    && Valid(c) && Feasible(c, run) && After(c, run).crash == NoCrash && After(c, run).main.Finished?
    && b.Valid()
    && var n := B.After(b, actions);
       && |n.log| == |n.transfers|
       && Carried(n.transfers, RunTraffic(c, issuer, run)) && Sized(n.transfers, least)
  }

  lemma SentCount(c: Config, issuer: nat -> nat, run: Run, b: B.Limits, actions: seq<B.Action>, least: Object -> nat,
                  o: Object)
    requires CarriedOut(c, issuer, run, b, actions, least)
    ensures CountOf(Sent(B.After(b, actions).transfers), o) == TransferBudget(c, o)
  {
    CountIsOrderless(Sent(B.After(b, actions).transfers), RunTraffic(c, issuer, run), o);
    TrafficIsRecorded(c, issuer, run, o);
    TransfersOf(c, run, o);
  }

  lemma KindSent(c: Config, issuer: nat -> nat, run: Run, b: B.Limits, actions: seq<B.Action>, least: Object -> nat,
                 size: Object -> nat, o: Object)
    requires CarriedOut(c, issuer, run, b, actions, least)
    ensures KindTime(b, size, CountOf(Sent(B.After(b, actions).transfers), o), o) ==
              KindTime(b, size, TransferBudget(c, o), o)
  {
    SentCount(c, issuer, run, b, actions, least, o);
  }

  /** The time of the packets is in closed form, whatever sizes it is reckoned with. */
  lemma SentTime(c: Config, issuer: nat -> nat, run: Run, b: B.Limits, actions: seq<B.Action>, least: Object -> nat,
                 size: Object -> nat)
    requires CarriedOut(c, issuer, run, b, actions, least)
    ensures PacketsTime(b, size, Sent(B.After(b, actions).transfers)) == SimulationTime(c, b, size)
  {
    KindSent(c, issuer, run, b, actions, least, size, Nonce);
    KindSent(c, issuer, run, b, actions, least, size, CredRequest);
    KindSent(c, issuer, run, b, actions, least, size, Credentials);
    KindSent(c, issuer, run, b, actions, least, size, TransactionProposal);
    KindSent(c, issuer, run, b, actions, least, size, Endorsement);
    KindSent(c, issuer, run, b, actions, least, size, Object.Transaction);
    KindSent(c, issuer, run, b, actions, least, size, NonRevocationRequest);
    KindSent(c, issuer, run, b, actions, least, size, NonRevocationHandle);
  }

  /** Whatever the interleaving of the protocol and the schedule of the network, a finished simulation has taken
      at least the closed-form sum of the global waits of its transfers. */
  lemma SimulationLasts(c: Config, issuer: nat -> nat, run: Run, b: B.Limits, actions: seq<B.Action>,
                        least: Object -> nat)
    requires CarriedOut(c, issuer, run, b, actions, least)
    ensures B.After(b, actions).now >= SimulationTime(c, b, least)
  {
    var n := B.After(b, actions);
    SentTime(c, issuer, run, b, actions, least, least);
    GlobalDemand(b, least, n.transfers);
    B.RunTakesItsDemand(b, actions, K.Root);
  }

  /** And no more than that: if time never passes while a transfer could take its lock, and nobody oversleeps, the
      global lock is released last no later than its last request plus the closed-form sum. */
  lemma SimulationEndsBy(c: Config, issuer: nat -> nat, run: Run, b: B.Limits, actions: seq<B.Action>,
                         least: Object -> nat, most: Object -> nat, last: nat, h: nat)
    requires CarriedOut(c, issuer, run, b, actions, least) && B.AllPrompt(b, actions)
    requires Capped(B.After(b, actions).transfers, most) && B.LastArrival(B.After(b, actions), B.Global, last)
    requires h < |B.After(b, actions).holders| && B.After(b, actions).holders[h].lock == B.Global
    ensures var stage := B.After(b, actions).holders[h].stage;
      stage.Released? && stage.until <= last + SimulationTime(c, b, most)
  {
    var n := B.After(b, actions);
    SentTime(c, issuer, run, b, actions, least, most);
    CappedDemand(b, most, n.transfers);
    B.UpperBound(b, actions, B.Global, last, h);
    B.AllReleased(b, actions, h);
  }

  lemma CarriedToUserZero(ps: seq<K.Packet>, qs: seq<K.Packet>)
    requires multiset(ps) == multiset(qs) && FromOrToUserZero(qs)
    ensures FromOrToUserZero(ps)
  {
    forall i | 0 <= i < |ps| && IsRevocation(ps[i].what)
      ensures ps[i].from == K.User(0) || ps[i].to == K.User(0)
    {
      assert ps[i] in multiset(qs);
      var j :| 0 <= j < |qs| && qs[j] == ps[i];
    }
  }

  /** One request per user at launch, and one per transaction. */
  function Requests(c: Config): nat {
    c.users + c.users * c.transactions
  }

  lemma RevocationCounts(c: Config, issuer: nat -> nat, run: Run, b: B.Limits, actions: seq<B.Action>,
                         least: Object -> nat)
    requires CarriedOut(c, issuer, run, b, actions, least) && c.revoke
    ensures var packets := Sent(B.After(b, actions).transfers);
      CountOf(packets, NonRevocationRequest) == CountOf(packets, NonRevocationHandle) == Requests(c)
  {
    SentCount(c, issuer, run, b, actions, least, NonRevocationRequest);
    SentCount(c, issuer, run, b, actions, least, NonRevocationHandle);
  }

  lemma RevocationEnds(c: Config, issuer: nat -> nat, run: Run, b: B.Limits, actions: seq<B.Action>,
                       least: Object -> nat)
    requires CarriedOut(c, issuer, run, b, actions, least)
    ensures FromOrToUserZero(Sent(B.After(b, actions).transfers))
  {
    RevocationIsUserZeros(c, issuer, run);
    CarriedToUserZero(Sent(B.After(b, actions).transfers), RunTraffic(c, issuer, run));
  }

  /** The waits of m requests and m handles are all on the lock of user 0, and have been waited. */
  ghost predicate UserZeroWaited(b: B.Limits, n: B.Network, m: nat)
    requires b.Valid()
  {
    && FromOrToUserZero(Sent(n.transfers))
    && CountOf(Sent(n.transfers), NonRevocationRequest) == CountOf(Sent(n.transfers), NonRevocationHandle) == m
    && B.Demand(b, B.Endpoint(K.User(0)), n.transfers) >= RevocationTime(b, m, m)
    && n.now >= RevocationTime(b, m, m)
  }

  lemma UserZeroIsBusy(b: B.Limits, actions: seq<B.Action>, least: Object -> nat, m: nat)
    requires b.Valid() && |B.After(b, actions).log| == |B.After(b, actions).transfers|
    requires var packets := Sent(B.After(b, actions).transfers);
      && Sized(B.After(b, actions).transfers, least) && FromOrToUserZero(packets)
      && CountOf(packets, NonRevocationRequest) == CountOf(packets, NonRevocationHandle) == m
    ensures UserZeroWaited(b, B.After(b, actions), m)
  {
    UserZeroDemand(b, least, B.After(b, actions).transfers);
    B.RunTakesItsDemand(b, actions, K.User(0));
  }

  /** With revocation, all 2(U + N) revocation transfers have user 0 at one end, whoever they are for; so a
      finished simulation has taken at least the sum of their waits, all on the lock of user 0. */
  lemma UserZeroCarriesRevocation(c: Config, issuer: nat -> nat, run: Run, b: B.Limits, actions: seq<B.Action>,
                                  least: Object -> nat)
    requires CarriedOut(c, issuer, run, b, actions, least) && c.revoke
    ensures UserZeroWaited(b, B.After(b, actions), Requests(c))
  {
    RevocationCounts(c, issuer, run, b, actions, least);
    RevocationEnds(c, issuer, run, b, actions, least);
    UserZeroIsBusy(b, actions, least, Requests(c));
  }

  lemma WaitsTogether(m: nat, x: nat, y: nat)
    ensures m * (x + y) == m * x + m * y
  {
  }

  /** A request is 799 bytes and a handle 323. */
  lemma RevocationTimeIs(b: B.Limits, m: nat)
    requires b.Valid()
    ensures RevocationTime(b, m, m) == m * (799000 / b.local + 323000 / b.local)
  {
    WaitsTogether(m, 799000 / b.local, 323000 / b.local);
  }

  /** In numbers: m requests and m handles have kept the lock of user 0 for so many milliseconds. */
  lemma WaitedInNumbers(b: B.Limits, n: B.Network, m: nat)
    requires b.Valid() && UserZeroWaited(b, n, m)
    ensures n.now >= m * (799000 / b.local + 323000 / b.local)
  {
    RevocationTimeIs(b, m);
  }

  // ---- the log of a simulation

  /** The number of packets is the number of its kinds added up. */
  lemma {:induction false} KindsAddUp(ps: seq<K.Packet>)
    ensures |ps| == CountOf(ps, Nonce) + CountOf(ps, CredRequest) + CountOf(ps, Credentials)
                    + CountOf(ps, TransactionProposal) + CountOf(ps, Endorsement) + CountOf(ps, Object.Transaction)
                    + CountOf(ps, NonRevocationRequest) + CountOf(ps, NonRevocationHandle)
  {
    if ps != [] {
      KindsAddUp(ps[..|ps| - 1]);
    }
  }

  /** A finished run has sent this many packets. */
  lemma TrafficLength(c: Config, issuer: nat -> nat, run: Run)
    requires Valid(c) && Feasible(c, run) && After(c, run).crash == NoCrash && After(c, run).main.Finished?
    ensures |RunTraffic(c, issuer, run)| == TransferTotal(c)
  {
    KindsAddUp(RunTraffic(c, issuer, run));
    TrafficIsRecorded(c, issuer, run, Nonce);
    TrafficIsRecorded(c, issuer, run, CredRequest);
    TrafficIsRecorded(c, issuer, run, Credentials);
    TrafficIsRecorded(c, issuer, run, TransactionProposal);
    TrafficIsRecorded(c, issuer, run, Endorsement);
    TrafficIsRecorded(c, issuer, run, Object.Transaction);
    TrafficIsRecorded(c, issuer, run, NonRevocationRequest);
    TrafficIsRecorded(c, issuer, run, NonRevocationHandle);
    NetworkConservation(c, run);
  }

  lemma SameSize<T>(xs: seq<T>, ys: seq<T>)
    requires multiset(xs) == multiset(ys)
    ensures |xs| == |ys|
  {
    assert |multiset(xs)| == |xs| && |multiset(ys)| == |ys|;
  }

  /** Whatever the interleaving and the schedule, the log of a finished simulation holds every packet of its run
      exactly once, under the ids from 1 to the closed-form number of transfers. */
  lemma LogIsComplete(c: Config, issuer: nat -> nat, run: Run, b: B.Limits, actions: seq<B.Action>,
                      least: Object -> nat)
    requires CarriedOut(c, issuer, run, b, actions, least)
    ensures var n := B.After(b, actions);
      && |n.log| == |n.transfers| == TransferTotal(c)
      && (forall i :: 0 <= i < |n.log| ==> n.log[i].id == i + 1 && B.LoggedTransfers(n)[i] < |n.transfers|)
      && multiset(Picked(Sent(n.transfers), B.LoggedTransfers(n))) == multiset(RunTraffic(c, issuer, run))
  {
    var n := B.After(b, actions);
    SameSize(Sent(n.transfers), RunTraffic(c, issuer, run));
    TrafficLength(c, issuer, run);
    B.LogIsOrdered(b, actions);
    Permuted(Sent(n.transfers), B.LoggedTransfers(n));
  }

  // ---- such a network exists

  function SizeOf(least: Object -> nat, what: Object): nat {
    if what == NonRevocationRequest then REQUEST
    else if what == NonRevocationHandle then HANDLE
    else least(what)
  }

  lemma CarriedNext(least: Object -> nat, ts: seq<B.Transfer>, ts': seq<B.Transfer>, packet: K.Packet)
    requires least(NonRevocationRequest) <= REQUEST && least(NonRevocationHandle) <= HANDLE && Sized(ts, least)
    requires |ts'| == |ts| + 1 && ts'[..|ts|] == ts
    requires ts'[|ts|].packet == packet && ts'[|ts|].size == SizeOf(least, packet.what)
    ensures Sized(ts', least) && Sent(ts') == Sent(ts) + [packet]
  {
    assert forall i :: 0 <= i < |ts| ==> ts'[i] == ts[i];
  }

  lemma {:induction false} CarryAll(b: B.Limits, least: Object -> nat, packets: seq<K.Packet>)
    returns (actions: seq<B.Action>)
    requires b.Valid() && least(NonRevocationRequest) <= REQUEST && least(NonRevocationHandle) <= HANDLE
    ensures B.AtRest(B.After(b, actions))
    ensures Sent(B.After(b, actions).transfers) == packets && Sized(B.After(b, actions).transfers, least)
  {
    if packets == [] {
      actions := [];
    } else {
      var front, packet := packets[..|packets| - 1], packets[|packets| - 1];
      var before := CarryAll(b, least, front);
      actions := B.CarryOne(b, before, packet, SizeOf(least, packet.what));
      var ts, ts' := B.After(b, before).transfers, B.After(b, actions).transfers;
      CarriedNext(least, ts, ts', packet);
      assert packets == front + [packet];
    }
  }

  /** Every finished run can be carried out on every network. */
  lemma EveryRunCanBeCarriedOut(c: Config, issuer: nat -> nat, run: Run, b: B.Limits, least: Object -> nat)
    returns (actions: seq<B.Action>)
    requires Valid(c) && Feasible(c, run) && After(c, run).crash == NoCrash && After(c, run).main.Finished?
    requires b.Valid() && least(NonRevocationRequest) <= REQUEST && least(NonRevocationHandle) <= HANDLE
    ensures CarriedOut(c, issuer, run, b, actions, least)
  {
    actions := CarryAll(b, least, RunTraffic(c, issuer, run));
  }
}
