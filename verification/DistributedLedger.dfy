/** The ledgers of the distributed peers. Orders fan out to every peer; each peer appends in its own order,
    reading its list and writing it back under a lock; an audit scans the list and then clears it, without
    taking the lock. */
module DistributedLedger {
  import opened Bags

  /** An ordered transaction, and which peers have appended it. */
  datatype Order = Order(tx: nat, appended: seq<bool>)

  /** A running audit goes over the list as it was when it started. */
  datatype Audit = Resting | Scanned(snapshot: seq<nat>)

  /** The lock is held by one append at a time, from its read of the list to its write. */
  datatype Lock = Free | Held(order: nat, seen: seq<nat>)

  /** The last three fields keep the account: entries that an audit went over before it cleared them, entries
      that were cleared without that, and entries that a late write brought back after they were cleared. */
  datatype Peer = Peer(
    ledger: seq<nat>,
    lock: Lock,
    audit: Audit,
    audited: multiset<nat>,
    lost: multiset<nat>,
    returned: multiset<nat>)

  datatype Network = Network(peers: seq<Peer>, orders: seq<Order>)

  datatype Label =
    | Submit(tx: nat)
    | Load(order: nat, peer: nat)
    | Store(peer: nat)
    | Scan(peer: nat)
    | Clear(peer: nat)

  const FRESH: Peer := Peer([], Free, Resting, multiset{}, multiset{}, multiset{})

  function Start(peers: nat): Network {
    Network(seq(peers, _ => FRESH), [])
  }

  predicate Owed(orders: seq<Order>, o: nat, p: nat) {
    o < |orders| && p < |orders[o].appended| && !orders[o].appended[p]
  }

  predicate Can(n: Network, l: Label) {
    match l
    case Submit(_) => true
    case Load(o, p) => p < |n.peers| && Owed(n.orders, o, p) && n.peers[p].lock.Free?
    case Store(p) => p < |n.peers| && n.peers[p].lock.Held? && Owed(n.orders, n.peers[p].lock.order, p)
    case Scan(p) => p < |n.peers| && n.peers[p].audit.Resting?
    case Clear(p) => p < |n.peers| && n.peers[p].audit.Scanned?
  }

  function Next(n: Network, l: Label): Network
    requires Can(n, l)
  {
    match l
    case Submit(tx) => n.(orders := n.orders + [Order(tx, seq(|n.peers|, _ => false))])
    case Load(o, p) => n.(peers := n.peers[p := n.peers[p].(lock := Held(o, n.peers[p].ledger))])
    case Store(p) =>
      var o := n.peers[p].lock.order;
      Network(n.peers[p := Stored(n.peers[p], n.orders[o].tx)], Append(n.orders, o, p))
    case Scan(p) => n.(peers := n.peers[p := n.peers[p].(audit := Scanned(n.peers[p].ledger))])
    case Clear(p) => n.(peers := n.peers[p := Cleared(n.peers[p])])
  }

  function Append(orders: seq<Order>, o: nat, p: nat): seq<Order>
    requires Owed(orders, o, p)
  {
    orders[o := orders[o].(appended := orders[o].appended[p := true])]
  }

  /** The write puts back what the read saw; only a clearing in between can have changed the list. */
  function Stored(peer: Peer, tx: nat): Peer
    requires peer.lock.Held?
  {
    peer.(ledger := peer.lock.seen + [tx], lock := Free, returned := peer.returned + Returning(peer))
  }

  function Returning(peer: Peer): multiset<nat> {
    if peer.lock.Held? && peer.ledger != peer.lock.seen then multiset(peer.lock.seen) else multiset{}
  }

  function Cleared(peer: Peer): Peer
    requires peer.audit.Scanned?
  {
    peer.(ledger := [], audit := Resting,
          audited := peer.audited + multiset(peer.audit.snapshot),
          lost := peer.lost + (multiset(peer.ledger) - multiset(peer.audit.snapshot)))
  }

  /** A label that cannot happen changes nothing. */
  function Step(n: Network, l: Label): Network {
    if Can(n, l) then Next(n, l) else n
  }

  function After(n: Network, run: seq<Label>): Network {
    if run == [] then n else Step(After(n, run[..|run| - 1]), run[|run| - 1])
  }

  // ---- the invariant

  /** While an append is between read and write, the list is what it read or was cleared; a running audit's
      snapshot is the beginning of the list. */
  ghost predicate PeerHolds(peer: Peer) {
    && (peer.lock.Held? ==> peer.ledger == peer.lock.seen || peer.ledger == [])
    && (peer.audit.Scanned? ==>
          peer.audit.snapshot <= peer.ledger && (peer.lock.Held? ==> peer.audit.snapshot <= peer.lock.seen))
  }

  ghost predicate Shape(n: Network) {
    && (forall o :: 0 <= o < |n.orders| ==> |n.orders[o].appended| == |n.peers|)
    && (forall p :: 0 <= p < |n.peers| ==> PeerHolds(n.peers[p]))
    && forall p :: 0 <= p < |n.peers| && n.peers[p].lock.Held? ==> Owed(n.orders, n.peers[p].lock.order, p)
  }

  lemma StepKeepsPeer(n: Network, l: Label, p: nat)
    requires p < |n.peers| && PeerHolds(n.peers[p])
    ensures |Step(n, l).peers| == |n.peers| && PeerHolds(Step(n, l).peers[p])
  {
  }

  lemma StepKeepsShape(n: Network, l: Label)
    requires Shape(n)
    ensures Shape(Step(n, l)) && |Step(n, l).peers| == |n.peers|
  {
    forall p | 0 <= p < |n.peers| ensures PeerHolds(Step(n, l).peers[p]) {
      StepKeepsPeer(n, l, p);
    }
  }

  lemma {:induction false} RunShape(peers: nat, run: seq<Label>)
    ensures Shape(After(Start(peers), run)) && |After(Start(peers), run).peers| == peers
  {
    if run != [] {
      RunShape(peers, run[..|run| - 1]);
      StepKeepsShape(After(Start(peers), run[..|run| - 1]), run[|run| - 1]);
    }
  }

  // ---- what was ordered, and what a peer has still to append

  function Ordered(orders: seq<Order>): multiset<nat> {
    if orders == [] then multiset{} else multiset{orders[0].tx} + Ordered(orders[1..])
  }

  /** The transaction of an order that the peer has not appended. */
  function Awaited(order: Order, p: nat): multiset<nat> {
    if p < |order.appended| && !order.appended[p] then multiset{order.tx} else multiset{}
  }

  function Pending(orders: seq<Order>, p: nat): multiset<nat> {
    if orders == [] then multiset{} else Awaited(orders[0], p) + Pending(orders[1..], p)
  }

  lemma {:induction false} OrderedSnoc(orders: seq<Order>, order: Order)
    ensures Ordered(orders + [order]) == Ordered(orders) + multiset{order.tx}
  {
    if orders != [] {
      OrderedSnoc(orders[1..], order);
      assert (orders + [order])[1..] == orders[1..] + [order];
    } else {
      assert orders + [order] == [order] && [order][1..] == [];
    }
  }

  lemma {:induction false} PendingSnoc(orders: seq<Order>, order: Order, p: nat)
    ensures Pending(orders + [order], p) == Pending(orders, p) + Awaited(order, p)
  {
    if orders != [] {
      PendingSnoc(orders[1..], order, p);
      assert (orders + [order])[1..] == orders[1..] + [order];
    } else {
      assert orders + [order] == [order] && [order][1..] == [];
    }
  }

  lemma AppendTail(orders: seq<Order>, o: nat, p: nat)
    requires Owed(orders, o, p)
    ensures o == 0 ==> Append(orders, o, p)[1..] == orders[1..]
    ensures o > 0 ==> Append(orders, o, p)[1..] == Append(orders[1..], o - 1, p)
  {
  }

  lemma {:induction false} OrderedStays(orders: seq<Order>, o: nat, p: nat)
    requires Owed(orders, o, p)
    ensures Ordered(Append(orders, o, p)) == Ordered(orders)
  {
    AppendTail(orders, o, p);
    if o > 0 {
      OrderedStays(orders[1..], o - 1, p);
    }
  }

  lemma {:induction false} PendingShrinks(orders: seq<Order>, o: nat, p: nat, q: nat)
    requires Owed(orders, o, p)
    ensures Pending(orders, q) ==
              Pending(Append(orders, o, p), q) + if p == q then multiset{orders[o].tx} else multiset{}
  {
    AppendTail(orders, o, p);
    if o > 0 {
      PendingShrinks(orders[1..], o - 1, p, q);
    }
  }

  lemma OrdersUpdate(orders: seq<Order>, o: nat, p: nat, q: nat)
    requires Owed(orders, o, p)
    ensures Ordered(Append(orders, o, p)) == Ordered(orders)
    ensures Pending(orders, q) ==
              Pending(Append(orders, o, p), q) + if p == q then multiset{orders[o].tx} else multiset{}
  {
    OrderedStays(orders, o, p);
    PendingShrinks(orders, o, p, q);
  }

  lemma NewOrder(n: Network, tx: nat, p: nat)
    requires p < |n.peers|
    ensures var n' := Next(n, Submit(tx));
      && Ordered(n'.orders) == Ordered(n.orders) + multiset{tx}
      && Pending(n'.orders, p) == Pending(n.orders, p) + multiset{tx}
  {
    var order := Order(tx, seq(|n.peers|, _ => false));
    OrderedSnoc(n.orders, order);
    PendingSnoc(n.orders, order, p);
    assert Awaited(order, p) == multiset{tx};
  }

  // ---- conservation

  function Account(peer: Peer): multiset<nat> {
    multiset(peer.ledger) + peer.audited + peer.lost
  }

  /** Everything ordered, and what came back, is in a peer's ledger, was audited there, was lost to an audit
      there, or has not got there yet. */
  ghost predicate Balanced(n: Network, p: nat)
    requires p < |n.peers|
  {
    Account(n.peers[p]) + Pending(n.orders, p) == Ordered(n.orders) + n.peers[p].returned
  }

  lemma Splits(whole: multiset<nat>, a: multiset<nat>, b: multiset<nat>, x: multiset<nat>, y: multiset<nat>)
    requires whole == x + y
    ensures multiset{} + (a + x) + (b + y) == whole + a + b
  {
  }

  lemma Remainder(xs: seq<nat>, ys: seq<nat>)
    requires xs <= ys
    ensures multiset(ys) == multiset(xs) + (multiset(ys) - multiset(xs))
  {
    assert ys == xs + ys[|xs|..];
  }

  /** A clearing moves entries between the parts of the account. */
  lemma ClearedAccount(peer: Peer)
    requires peer.audit.Scanned? && peer.audit.snapshot <= peer.ledger
    ensures Account(Cleared(peer)) == Account(peer)
  {
    var scanned := multiset(peer.audit.snapshot);
    Remainder(peer.audit.snapshot, peer.ledger);
    Splits(multiset(peer.ledger), peer.audited, peer.lost, scanned, multiset(peer.ledger) - scanned);
  }

  /** A write adds the new entry and whatever it brings back. */
  lemma StoredAccount(peer: Peer, tx: nat)
    requires peer.lock.Held? && PeerHolds(peer)
    ensures Account(Stored(peer, tx)) == Account(peer) + multiset{tx} + Returning(peer)
  {
    var seen := multiset(peer.lock.seen);
    assert multiset(peer.lock.seen + [tx]) == seen + multiset{tx};
    if peer.ledger == peer.lock.seen {
      Grows(seen, peer.audited, peer.lost, multiset{tx}, multiset{});
    } else {
      Grows(multiset{}, peer.audited, peer.lost, multiset{tx}, seen);
    }
  }

  lemma Grows(l: multiset<nat>, a: multiset<nat>, b: multiset<nat>, x: multiset<nat>, back: multiset<nat>)
    ensures (l + back + x) + a + b == l + a + b + x + back
  {
    assert back == multiset{} ==> l + back == l;
  }

  lemma Rearrange(account: multiset<nat>, x: multiset<nat>, back: multiset<nat>, rest: multiset<nat>,
                  ordered: multiset<nat>, returned: multiset<nat>)
    requires account + (rest + x) == ordered + returned
    ensures (account + x + back) + rest == ordered + (returned + back)
  {
    assert (account + x + back) + rest == account + (rest + x) + back;
  }

  lemma StoreKeepsBalance(n: Network, q: nat, p: nat)
    requires p < |n.peers| && PeerHolds(n.peers[p]) && Balanced(n, p) && Can(n, Store(q))
    ensures Balanced(Next(n, Store(q)), p)
  {
    var o := n.peers[q].lock.order;
    OrdersUpdate(n.orders, o, q, p);
    if p == q {
      var peer := n.peers[p];
      StoredAccount(peer, n.orders[o].tx);
      Rearrange(Account(peer), multiset{n.orders[o].tx}, Returning(peer), Pending(Append(n.orders, o, q), p),
                Ordered(n.orders), peer.returned);
    }
  }

  lemma SubmitKeepsBalance(n: Network, tx: nat, p: nat)
    requires p < |n.peers| && Balanced(n, p)
    ensures Balanced(Next(n, Submit(tx)), p)
  {
    NewOrder(n, tx, p);
    BothGrow(Account(n.peers[p]), Pending(n.orders, p), Ordered(n.orders), n.peers[p].returned, multiset{tx});
  }

  lemma BothGrow(account: multiset<nat>, pending: multiset<nat>, ordered: multiset<nat>, returned: multiset<nat>,
                 x: multiset<nat>)
    requires account + pending == ordered + returned
    ensures account + (pending + x) == (ordered + x) + returned
  {
    assert account + (pending + x) == (account + pending) + x;
  }

  lemma ClearKeepsBalance(n: Network, q: nat, p: nat)
    requires p < |n.peers| && PeerHolds(n.peers[p]) && Balanced(n, p) && Can(n, Clear(q))
    ensures Balanced(Next(n, Clear(q)), p)
  {
    if p == q {
      ClearedAccount(n.peers[q]);
    }
  }

  /** A read, of an append or of an audit, moves nothing. */
  lemma ReadKeepsBalance(n: Network, l: Label, p: nat)
    requires p < |n.peers| && Balanced(n, p) && Can(n, l) && (l.Load? || l.Scan?)
    ensures Balanced(Next(n, l), p)
  {
    assert Account(Next(n, l).peers[p]) == Account(n.peers[p]);
  }

  lemma StepKeepsBalance(n: Network, l: Label, p: nat)
    requires p < |n.peers| && PeerHolds(n.peers[p]) && Balanced(n, p)
    ensures p < |Step(n, l).peers| && Balanced(Step(n, l), p)
  {
    if Can(n, l) {
      match l {
        case Submit(tx) => SubmitKeepsBalance(n, tx, p);
        case Store(q) => StoreKeepsBalance(n, q, p);
        case Clear(q) => ClearKeepsBalance(n, q, p);
        case _ => ReadKeepsBalance(n, l, p);
      }
    }
  }

  /** In every reachable state and for every peer, ledger, audited, lost and pending transactions add up to
      the ordered and the returned ones. */
  lemma {:induction false} LedgerConservation(peers: nat, run: seq<Label>, p: nat)
    requires p < peers
    ensures p < |After(Start(peers), run).peers| && Balanced(After(Start(peers), run), p)
  {
    RunShape(peers, run);
    if run != [] {
      var before := run[..|run| - 1];
      RunShape(peers, before);
      LedgerConservation(peers, before, p);
      StepKeepsBalance(After(Start(peers), before), run[|run| - 1], p);
    }
  }

  // ---- when nothing is lost and nothing comes back

  /** A write that an audit has not gone over and will clear. */
  predicate LateStore(n: Network, l: Label, p: nat) {
    l == Store(p) && Can(n, l) && n.peers[p].audit.Scanned?
  }

  /** A clearing of entries that an append has read and will write back. */
  predicate LateClear(n: Network, l: Label, p: nat) {
    l == Clear(p) && Can(n, l) && n.peers[p].lock.Held? && n.peers[p].ledger != []
  }

  /** Somewhere in the run an append wrote between an audit's scan and its clearing. */
  predicate SomeLateStore(n: Network, run: seq<Label>, p: nat) {
    run != [] && (
      var before := run[..|run| - 1];
      SomeLateStore(n, before, p) || LateStore(After(n, before), run[|run| - 1], p))
  }

  /** Somewhere in the run an audit cleared a list that was not empty between an append's read and its write. */
  predicate SomeLateClear(n: Network, run: seq<Label>, p: nat) {
    run != [] && (
      var before := run[..|run| - 1];
      SomeLateClear(n, before, p) || LateClear(After(n, before), run[|run| - 1], p))
  }

  /** Entries were lost, or the running audit will clear some that it has not gone over. */
  predicate Loses(peer: Peer) {
    peer.lost != multiset{} || (peer.audit.Scanned? && peer.ledger != peer.audit.snapshot)
  }

  /** Entries came back, or the append under way will bring some back. */
  predicate Returns(peer: Peer) {
    peer.returned != multiset{} || (peer.lock.Held? && peer.ledger != peer.lock.seen)
  }

  lemma Shorter(xs: seq<nat>, ys: seq<nat>)
    requires xs <= ys
    ensures multiset(ys) - multiset(xs) == multiset{} <==> ys == xs
  {
    assert ys == xs + ys[|xs|..];
    assert multiset(ys) - multiset(xs) == multiset(ys[|xs|..]);
    assert |multiset(ys[|xs|..])| == |ys| - |xs|;
  }

  lemma NoneAdded(a: multiset<nat>, b: multiset<nat>)
    ensures a + b == multiset{} <==> a == multiset{} && b == multiset{}
  {
    assert |a + b| == |a| + |b|;
  }

  lemma ClearLoses(peer: Peer)
    requires PeerHolds(peer) && peer.audit.Scanned?
    ensures Loses(Cleared(peer)) <==> Loses(peer)
  {
    Shorter(peer.audit.snapshot, peer.ledger);
    NoneAdded(peer.lost, multiset(peer.ledger) - multiset(peer.audit.snapshot));
  }

  lemma StoreLoses(peer: Peer, tx: nat)
    requires PeerHolds(peer) && peer.lock.Held?
    ensures Loses(Stored(peer, tx)) <==> Loses(peer) || peer.audit.Scanned?
  {
    assert |Stored(peer, tx).ledger| == |peer.lock.seen| + 1;
  }

  lemma StoreReturns(peer: Peer, tx: nat)
    requires PeerHolds(peer) && peer.lock.Held?
    ensures Returns(Stored(peer, tx)) <==> Returns(peer)
  {
    NoneAdded(peer.returned, Returning(peer));
    assert |multiset(peer.lock.seen)| == |peer.lock.seen|;
  }

  /** What a step does to one peer. */
  function PeerNext(n: Network, l: Label, p: nat): Peer
    requires p < |n.peers|
  {
    var peer := n.peers[p];
    if !Can(n, l) then peer else
    match l
    case Load(o, q) => if q == p then peer.(lock := Held(o, peer.ledger)) else peer
    case Store(q) => if q == p then Stored(peer, n.orders[peer.lock.order].tx) else peer
    case Scan(q) => if q == p then peer.(audit := Scanned(peer.ledger)) else peer
    case Clear(q) => if q == p then Cleared(peer) else peer
    case Submit(_) => peer
  }

  lemma PeerSteps(n: Network, l: Label, p: nat)
    requires p < |n.peers|
    ensures |Step(n, l).peers| == |n.peers| && Step(n, l).peers[p] == PeerNext(n, l, p)
  {
  }

  lemma LossStep(n: Network, l: Label, p: nat)
    requires p < |n.peers| && PeerHolds(n.peers[p])
    ensures p < |Step(n, l).peers|
    ensures Loses(Step(n, l).peers[p]) <==> Loses(n.peers[p]) || LateStore(n, l, p)
  {
    PeerSteps(n, l, p);
    PeerLoss(n, l, p);
  }

  lemma PeerLoss(n: Network, l: Label, p: nat)
    requires p < |n.peers| && PeerHolds(n.peers[p])
    ensures Loses(PeerNext(n, l, p)) <==> Loses(n.peers[p]) || LateStore(n, l, p)
  {
    var peer := n.peers[p];
    if Can(n, l) {
      if l == Clear(p) {
        ClearLoses(peer);
      } else if l == Store(p) {
        StoreLoses(peer, n.orders[peer.lock.order].tx);
      }
    }
  }

  lemma ClearReturns(peer: Peer)
    requires PeerHolds(peer) && peer.audit.Scanned?
    ensures Returns(Cleared(peer)) <==> Returns(peer) || (peer.lock.Held? && peer.ledger != [])
  {
  }

  lemma PeerReturn(n: Network, l: Label, p: nat)
    requires p < |n.peers| && PeerHolds(n.peers[p])
    ensures Returns(PeerNext(n, l, p)) <==> Returns(n.peers[p]) || LateClear(n, l, p)
  {
    var peer := n.peers[p];
    if Can(n, l) {
      if l == Clear(p) {
        ClearReturns(peer);
      } else if l == Store(p) {
        StoreReturns(peer, n.orders[peer.lock.order].tx);
      }
    }
  }

  lemma ReturnStep(n: Network, l: Label, p: nat)
    requires p < |n.peers| && PeerHolds(n.peers[p])
    ensures p < |Step(n, l).peers|
    ensures Returns(Step(n, l).peers[p]) <==> Returns(n.peers[p]) || LateClear(n, l, p)
  {
    PeerSteps(n, l, p);
    PeerReturn(n, l, p);
  }

  /** Something was lost, or is about to be, exactly when an append wrote between a scan and its clearing. */
  lemma {:induction false} LossIff(peers: nat, run: seq<Label>, p: nat)
    requires p < peers
    ensures p < |After(Start(peers), run).peers|
    ensures Loses(After(Start(peers), run).peers[p]) <==> SomeLateStore(Start(peers), run, p)
  {
    RunShape(peers, run);
    if run != [] {
      var before := run[..|run| - 1];
      RunShape(peers, before);
      LossIff(peers, before, p);
      LossStep(After(Start(peers), before), run[|run| - 1], p);
    }
  }

  /** Something came back, or is about to, exactly when a clearing took entries from under an append. */
  lemma {:induction false} ReturnIff(peers: nat, run: seq<Label>, p: nat)
    requires p < peers
    ensures p < |After(Start(peers), run).peers|
    ensures Returns(After(Start(peers), run).peers[p]) <==> SomeLateClear(Start(peers), run, p)
  {
    RunShape(peers, run);
    if run != [] {
      var before := run[..|run| - 1];
      RunShape(peers, before);
      ReturnIff(peers, before, p);
      ReturnStep(After(Start(peers), before), run[|run| - 1], p);
    }
  }

  /** No append and no audit is under way. */
  predicate Quiet(peer: Peer) {
    peer.lock.Free? && peer.audit.Resting?
  }

  /** On a quiet peer nothing was lost and nothing came back exactly when no append wrote between a scan and
      its clearing and no clearing of a list with entries fell between an append's read and its write. */
  lemma NothingLostIff(peers: nat, run: seq<Label>, p: nat)
    requires p < peers && p < |After(Start(peers), run).peers| && Quiet(After(Start(peers), run).peers[p])
    ensures var peer := After(Start(peers), run).peers[p];
      && (peer.lost == multiset{} <==> !SomeLateStore(Start(peers), run, p))
      && (peer.returned == multiset{} <==> !SomeLateClear(Start(peers), run, p))
  {
    LossIff(peers, run, p);
    ReturnIff(peers, run, p);
  }

  /** At some moment of the run both an append, from read to write, and an audit, from scan to clearing, were
      under way on the peer: their intervals intersect. */
  predicate Intersect(n: Network, run: seq<Label>, p: nat) {
    var m := After(n, run);
    || (p < |m.peers| && m.peers[p].lock.Held? && m.peers[p].audit.Scanned?)
    || (run != [] && Intersect(n, run[..|run| - 1], p))
  }

  /** Intervals that do not intersect do no harm. */
  lemma {:induction false} DisjointIsHarmless(n: Network, run: seq<Label>, p: nat)
    requires !Intersect(n, run, p)
    ensures !SomeLateStore(n, run, p) && !SomeLateClear(n, run, p)
  {
    if run != [] {
      DisjointIsHarmless(n, run[..|run| - 1], p);
    }
  }

  // ---- agreement

  /** No order is waiting for a peer. */
  ghost predicate Settled(n: Network) {
    forall o, p :: 0 <= o < |n.orders| && 0 <= p < |n.orders[o].appended| ==> n.orders[o].appended[p]
  }

  lemma {:induction false} SettledOwesNothing(orders: seq<Order>, p: nat)
    requires forall o :: 0 <= o < |orders| && p < |orders[o].appended| ==> orders[o].appended[p]
    ensures Pending(orders, p) == multiset{}
  {
    if orders != [] {
      SettledOwesNothing(orders[1..], p);
    }
  }

  /** With no order in flight, a peer's ledger and its audited entries are exactly what was ordered if and only
      if whatever was lost came back, and nothing else did. */
  lemma LedgerExactIff(peers: nat, run: seq<Label>, p: nat)
    requires p < peers && |After(Start(peers), run).peers| == peers && Settled(After(Start(peers), run))
    ensures var n := After(Start(peers), run);
      var peer := n.peers[p];
      multiset(peer.ledger) + peer.audited == Ordered(n.orders) <==> peer.lost == peer.returned
  {
    var n := After(Start(peers), run);
    var peer := n.peers[p];
    LedgerConservation(peers, run, p);
    SettledOwesNothing(n.orders, p);
    assert Account(peer) + multiset{} == Account(peer);
    Cancel(multiset(peer.ledger) + peer.audited, peer.lost, Ordered(n.orders), peer.returned);
  }

  /** With no order in flight and no audit intersecting an append, each ledger holds what was ordered and not
      yet audited there; so two peers agree, as multisets, exactly when the same was audited on both. */
  lemma LedgersAgree(peers: nat, run: seq<Label>, p: nat, q: nat)
    requires p < peers && q < peers && |After(Start(peers), run).peers| == peers
    requires Settled(After(Start(peers), run))
    requires After(Start(peers), run).peers[p].audit.Resting? && !Intersect(Start(peers), run, p)
    requires After(Start(peers), run).peers[q].audit.Resting? && !Intersect(Start(peers), run, q)
    ensures var n := After(Start(peers), run);
      && multiset(n.peers[p].ledger) + n.peers[p].audited == Ordered(n.orders)
      && (multiset(n.peers[p].ledger) == multiset(n.peers[q].ledger) <==> n.peers[p].audited == n.peers[q].audited)
  {
    var n := After(Start(peers), run);
    LedgerIsExact(peers, run, p);
    LedgerIsExact(peers, run, q);
    Cancel(multiset(n.peers[p].ledger), n.peers[p].audited, multiset(n.peers[q].ledger), n.peers[q].audited);
  }

  lemma LedgerIsExact(peers: nat, run: seq<Label>, p: nat)
    requires p < peers && |After(Start(peers), run).peers| == peers && Settled(After(Start(peers), run))
    requires After(Start(peers), run).peers[p].audit.Resting? && !Intersect(Start(peers), run, p)
    ensures var n := After(Start(peers), run);
      multiset(n.peers[p].ledger) + n.peers[p].audited == Ordered(n.orders)
  {
    RunShape(peers, run);
    SettledIsFree(After(Start(peers), run), p);
    DisjointIsHarmless(Start(peers), run, p);
    NothingLostIff(peers, run, p);
    LedgerExactIff(peers, run, p);
  }

  lemma SettledIsFree(n: Network, p: nat)
    requires Shape(n) && Settled(n) && p < |n.peers|
    ensures n.peers[p].lock.Free?
  {
  }

  // ---- agreement since an audit

  /** The transactions submitted in a run. */
  function Submitted(run: seq<Label>): multiset<nat> {
    if run == [] then multiset{}
    else Submitted(run[..|run| - 1]) + if run[|run| - 1].Submit? then multiset{run[|run| - 1].tx} else multiset{}
  }

  /** What a peer has appended since its last clearing, and what it has still to append. */
  function Arrived(n: Network, p: nat): multiset<nat>
    requires p < |n.peers|
  {
    multiset(n.peers[p].ledger) + Pending(n.orders, p)
  }

  lemma MoveAcross(a: multiset<nat>, b: multiset<nat>, x: multiset<nat>)
    ensures (a + x) + b == a + (b + x)
    ensures a + (b + x) == (a + b) + x
  {
  }

  /** Undisturbed by audits, an append under way has seen the whole list. */
  predicate Undisturbed(peer: Peer) {
    peer.lock.Held? ==> peer.ledger == peer.lock.seen
  }

  lemma StoreMoves(n: Network, q: nat, p: nat)
    requires p < |n.peers| && Undisturbed(n.peers[p]) && Can(n, Store(q))
    ensures Arrived(Next(n, Store(q)), p) == Arrived(n, p)
  {
    var n' := Next(n, Store(q));
    var o := n.peers[q].lock.order;
    OrdersUpdate(n.orders, o, q, p);
    if p == q {
      var one := multiset{n.orders[o].tx};
      assert multiset(n'.peers[p].ledger) == multiset(n.peers[p].ledger) + one;
      MoveAcross(multiset(n.peers[p].ledger), Pending(n'.orders, p), one);
    }
  }

  lemma SubmitArrives(n: Network, tx: nat, p: nat)
    requires p < |n.peers|
    ensures Arrived(Next(n, Submit(tx)), p) == Arrived(n, p) + multiset{tx}
  {
    NewOrder(n, tx, p);
    MoveAcross(multiset(n.peers[p].ledger), Pending(n.orders, p), multiset{tx});
  }

  lemma ArrivedStep(n: Network, l: Label, p: nat)
    requires p < |n.peers| && Undisturbed(n.peers[p]) && l != Scan(p) && l != Clear(p)
    ensures |Step(n, l).peers| == |n.peers|
    ensures Arrived(Step(n, l), p) == Arrived(n, p) + if l.Submit? then multiset{l.tx} else multiset{}
  {
    if Can(n, l) {
      match l {
        case Submit(tx) => SubmitArrives(n, tx, p);
        case Load(_, _) =>
        case Store(q) => StoreMoves(n, q, p);
        case Scan(_) =>
        case Clear(_) =>
      }
    }
  }

  lemma PeerSinceAudit(n: Network, l: Label, p: nat)
    requires p < |n.peers| && Undisturbed(n.peers[p]) && l != Scan(p) && l != Clear(p)
    ensures |Step(n, l).peers| == |n.peers|
    ensures var peer, peer' := n.peers[p], Step(n, l).peers[p];
      && Undisturbed(peer') && peer'.audited == peer.audited && peer'.lost == peer.lost
      && peer'.returned == peer.returned
  {
    assert n.peers[p].returned + multiset{} == n.peers[p].returned;
  }

  /** From a state in which the peer's ledger is empty, no append is under way and nothing is pending, until its
      next audit, the peer holds exactly what was submitted since, but for what has not reached it yet. */
  lemma {:induction false} LedgerSinceAudit(n: Network, run: seq<Label>, p: nat)
    requires p < |n.peers| && Arrived(n, p) == multiset{} && n.peers[p].lock.Free?
    requires forall i :: 0 <= i < |run| ==> run[i] != Scan(p) && run[i] != Clear(p)
    ensures var m := After(n, run);
      && |m.peers| == |n.peers|
      && Arrived(m, p) == Submitted(run)
      && Undisturbed(m.peers[p])
      && m.peers[p].audited == n.peers[p].audited && m.peers[p].lost == n.peers[p].lost
      && m.peers[p].returned == n.peers[p].returned
  {
    if run != [] {
      LedgerSinceAudit(n, run[..|run| - 1], p);
      ArrivedStep(After(n, run[..|run| - 1]), run[|run| - 1], p);
      PeerSinceAudit(After(n, run[..|run| - 1]), run[|run| - 1], p);
    }
  }

  /** An audit round: while no order is in flight, every peer is scanned and cleared, in any interleaving. */
  ghost predicate AuditsOnly(run: seq<Label>) {
    forall i :: 0 <= i < |run| ==> run[i].Scan? || run[i].Clear?
  }

  /** The peer was cleared in the run. */
  predicate WasCleared(n: Network, run: seq<Label>, p: nat) {
    run != [] && (
      var before := run[..|run| - 1];
      WasCleared(n, before, p) || (run[|run| - 1] == Clear(p) && Can(After(n, before), Clear(p))))
  }

  ghost predicate RoundHolds(old': Peer, peer: Peer, cleared: bool) {
    && peer.lock.Free? && PeerHolds(peer)
    && peer.ledger == (if cleared then [] else old'.ledger)
    && (peer.audit.Scanned? ==> peer.audit.snapshot == peer.ledger)
    && peer.lost == old'.lost && peer.returned == old'.returned
    && multiset(peer.ledger) + peer.audited == multiset(old'.ledger) + old'.audited
  }

  lemma RoundStep(n: Network, l: Label, p: nat, old': Peer, cleared: bool)
    requires p < |n.peers| && RoundHolds(old', n.peers[p], cleared) && (l.Scan? || l.Clear?)
    ensures |Step(n, l).peers| == |n.peers| && Step(n, l).orders == n.orders
    ensures RoundHolds(old', Step(n, l).peers[p], cleared || (l == Clear(p) && Can(n, l)))
  {
    if l == Clear(p) && Can(n, l) {
      var peer := n.peers[p];
      assert multiset(peer.ledger) - multiset(peer.ledger) == multiset{};
      assert peer.lost + multiset{} == peer.lost;
      assert multiset{} + (peer.audited + multiset(peer.ledger)) == multiset(peer.ledger) + peer.audited;
    }
  }

  lemma {:induction false} RoundKeepsRest(n: Network, run: seq<Label>, p: nat)
    requires p < |n.peers| && AuditsOnly(run) && Quiet(n.peers[p])
    ensures var m := After(n, run);
      && |m.peers| == |n.peers| && m.orders == n.orders
      && RoundHolds(n.peers[p], m.peers[p], WasCleared(n, run, p))
  {
    if run != [] {
      var before := run[..|run| - 1];
      RoundKeepsRest(n, before, p);
      RoundStep(After(n, before), run[|run| - 1], p, n.peers[p], WasCleared(n, before, p));
    }
  }

  lemma OnePeerSinceAudit(n: Network, round: seq<Label>, run: seq<Label>, p: nat)
    requires Shape(n) && Settled(n) && p < |n.peers| && n.peers[p].audit.Resting?
    requires AuditsOnly(round) && WasCleared(n, round, p)
    requires forall i :: 0 <= i < |run| ==> !run[i].Scan? && !run[i].Clear?
    ensures var m := After(After(n, round), run);
      && |m.peers| == |n.peers|
      && Arrived(m, p) == Submitted(run)
      && m.peers[p].lost == n.peers[p].lost && m.peers[p].returned == n.peers[p].returned
      && m.peers[p].audited == multiset(n.peers[p].ledger) + n.peers[p].audited
  {
    SettledIsFree(n, p);
    RoundKeepsRest(n, round, p);
    SettledOwesNothing(n.orders, p);
    LedgerSinceAudit(After(n, round), run, p);
    assert multiset{} + After(n, round).peers[p].audited == After(n, round).peers[p].audited;
  }

  /** After a round without orders in flight, and any run after it without audits: every ledger holds exactly
      what was submitted since the round, but for what is still on its way; with nothing on its way, all the
      peers agree. */
  lemma AgreementSinceAudit(n: Network, round: seq<Label>, run: seq<Label>, p: nat, q: nat)
    requires Shape(n) && Settled(n) && p < |n.peers| && q < |n.peers|
    requires n.peers[p].audit.Resting? && n.peers[q].audit.Resting?
    requires AuditsOnly(round) && WasCleared(n, round, p) && WasCleared(n, round, q)
    requires forall i :: 0 <= i < |run| ==> !run[i].Scan? && !run[i].Clear?
    ensures var m := After(After(n, round), run);
      && |m.peers| == |n.peers|
      && Arrived(m, p) == Submitted(run)
      && (Settled(m) ==> multiset(m.peers[p].ledger) == multiset(m.peers[q].ledger) == Submitted(run))
      && m.peers[p].lost == n.peers[p].lost && m.peers[p].returned == n.peers[p].returned
      && m.peers[p].audited == multiset(n.peers[p].ledger) + n.peers[p].audited
  {
    OnePeerSinceAudit(n, round, run, p);
    OnePeerSinceAudit(n, round, run, q);
    var m := After(After(n, round), run);
    if Settled(m) {
      SettledOwesNothing(m.orders, p);
      SettledOwesNothing(m.orders, q);
      assert Arrived(m, p) == multiset(m.peers[p].ledger) && Arrived(m, q) == multiset(m.peers[q].ledger);
    }
  }

  // ---- witnesses

  /** These states follow one another under these labels. */
  ghost predicate Path(states: seq<Network>, run: seq<Label>) {
    |states| == |run| + 1 && forall i :: 0 <= i < |run| ==> states[i + 1] == Step(states[i], run[i])
  }

  lemma {:induction false} PathReaches(states: seq<Network>, run: seq<Label>)
    requires Path(states, run)
    ensures After(states[0], run) == states[|run|]
  {
    if run != [] {
      PathReaches(states[..|run|], run[..|run| - 1]);
    }
  }

  function At(ledger: seq<nat>, lock: Lock, audit: Audit): Peer {
    Peer(ledger, lock, audit, multiset{}, multiset{}, multiset{})
  }

  /** The states of one peer during the run below. */
  function LosingPath(x: nat): seq<Network> {
    var waiting, appended := [Order(x, [false])], [Order(x, [true])];
    [Network([FRESH], []),
     Network([FRESH], waiting),
     Network([At([], Free, Scanned([]))], waiting),
     Network([At([], Held(0, []), Scanned([]))], waiting),
     Network([At([x], Free, Scanned([]))], appended),
     Network([FRESH.(lost := multiset{x})], appended)]
  }

  lemma LosingSteps(x: nat)
    ensures Path(LosingPath(x), [Submit(x), Scan(0), Load(0, 0), Store(0), Clear(0)])
  {
    var s := LosingPath(x);
    assert Step(s[0], Submit(x)) == s[1] by {
      assert Step(s[0], Submit(x)).orders[0].appended == [false];
    }
    assert Step(s[1], Scan(0)) == s[2];
    assert Step(s[2], Load(0, 0)) == s[3];
    assert Step(s[3], Store(0)) == s[4] by {
      assert [] + [x] == [x] && FRESH.lost + FRESH.lost == FRESH.lost;
      assert [false][0 := true] == [true];
    }
    assert Step(s[4], Clear(0)) == s[5] by {
      assert multiset{} + (multiset([x]) - multiset([])) == multiset{x};
    }
  }

  /** An audit can lose a transaction: it was ordered and appended, and is gone without having been audited. */
  lemma AuditCanLose(x: nat)
    ensures var n := After(Start(1), [Submit(x), Scan(0), Load(0, 0), Store(0), Clear(0)]);
      && |n.peers| == 1 && Settled(n) && Ordered(n.orders) == multiset{x}
      && n.peers[0] == FRESH.(lost := multiset{x})
  {
    LosingSteps(x);
    assert Start(1).peers == [FRESH];
    PathReaches(LosingPath(x), [Submit(x), Scan(0), Load(0, 0), Store(0), Clear(0)]);
    assert [Order(x, [true])][1..] == [];
  }

  /** The states of one peer during the run below. */
  function ReturningPath(x: nat, y: nat): seq<Network> {
    var none, first := [Order(x, [false]), Order(y, [false])], [Order(x, [true]), Order(y, [false])];
    [Network([FRESH], []),
     Network([FRESH], [Order(x, [false])]),
     Network([FRESH], none),
     Network([At([], Held(0, []), Resting)], none),
     Network([At([x], Free, Resting)], first),
     Network([At([x], Held(1, [x]), Resting)], first),
     Network([At([x], Held(1, [x]), Scanned([x]))], first),
     Network([Peer([], Held(1, [x]), Resting, multiset{x}, multiset{}, multiset{})], first),
     Network([Peer([x, y], Free, Resting, multiset{x}, multiset{}, multiset{x})], [Order(x, [true]), Order(y, [true])])]
  }

  lemma ReturningStart(x: nat, y: nat)
    ensures var s := ReturningPath(x, y);
      && Step(s[0], Submit(x)) == s[1] && Step(s[1], Submit(y)) == s[2] && Step(s[2], Load(0, 0)) == s[3]
      && Step(s[3], Store(0)) == s[4]
  {
    var s := ReturningPath(x, y);
    assert Step(s[0], Submit(x)).orders[0].appended == [false];
    assert Step(s[1], Submit(y)).orders[1].appended == [false];
    assert [] + [x] == [x] && FRESH.lost + FRESH.lost == FRESH.lost;
    assert [false][0 := true] == [true];
    assert Step(s[3], Store(0)).orders == s[4].orders;
  }

  lemma ReturningEnd(x: nat, y: nat)
    ensures var s := ReturningPath(x, y);
      && Step(s[4], Load(1, 0)) == s[5] && Step(s[5], Scan(0)) == s[6] && Step(s[6], Clear(0)) == s[7]
      && Step(s[7], Store(0)) == s[8]
  {
    var s := ReturningPath(x, y);
    assert multiset{} + (multiset([x]) - multiset([x])) == multiset{} && multiset{} + multiset([x]) == multiset{x};
    assert [x] + [y] == [x, y];
    assert [false][0 := true] == [true];
    assert Step(s[7], Store(0)).orders == s[8].orders;
  }

  lemma OrderedTwo(x: nat, y: nat)
    ensures Ordered([Order(x, [true]), Order(y, [true])]) == multiset{x, y}
  {
    assert [Order(x, [true]), Order(y, [true])][1..] == [Order(y, [true])] && [Order(y, [true])][1..] == [];
    assert Ordered([Order(y, [true])]) == multiset{y};
  }

  /** An append can bring back what an audit went over and cleared: nothing is pending or lost, and yet the
      transaction is in the ledger again. */
  lemma AppendCanBringBack(x: nat, y: nat)
    ensures var n := After(Start(1),
        [Submit(x), Submit(y), Load(0, 0), Store(0), Load(1, 0), Scan(0), Clear(0), Store(0)]);
      && |n.peers| == 1 && Settled(n) && Ordered(n.orders) == multiset{x, y}
      && n.peers[0] == Peer([x, y], Free, Resting, multiset{x}, multiset{}, multiset{x})
  {
    ReturningStart(x, y);
    ReturningEnd(x, y);
    OrderedTwo(x, y);
    assert Start(1).peers == [FRESH];
    PathReaches(ReturningPath(x, y),
                [Submit(x), Submit(y), Load(0, 0), Store(0), Load(1, 0), Scan(0), Clear(0), Store(0)]);
  }

  function Both(a: seq<nat>, b: seq<nat>, x: nat, y: nat, forX: seq<bool>, forY: seq<bool>): Network {
    Network([At(a, Free, Resting), At(b, Free, Resting)], [Order(x, forX), Order(y, forY)])
  }

  /** An append with nothing in between. */
  lemma WholeAppend(n: Network, run: seq<Label>, m: Network, o: nat, p: nat)
    requires After(n, run) == m
    ensures After(n, run + [Load(o, p), Store(p)]) == Step(Step(m, Load(o, p)), Store(p))
  {
    var whole := run + [Load(o, p), Store(p)];
    assert whole[..|whole| - 1] == run + [Load(o, p)];
    assert (run + [Load(o, p)])[..|run|] == run;
  }

  lemma LoadThenStore(n: Network, o: nat, p: nat)
    requires p < |n.peers| && Can(n, Load(o, p))
    ensures Step(Step(n, Load(o, p)), Store(p)) ==
              Network(n.peers[p := n.peers[p].(ledger := n.peers[p].ledger + [n.orders[o].tx])], Append(n.orders, o, p))
  {
    assert n.peers[p].returned + multiset{} == n.peers[p].returned;
    var m := Step(n, Load(o, p));
    assert m == Next(n, Load(o, p)) && Can(m, Store(p));
    assert Next(m, Store(p)).peers[p] == n.peers[p].(ledger := n.peers[p].ledger + [n.orders[o].tx]);
  }

  lemma BothAppend(a: seq<nat>, b: seq<nat>, x: nat, y: nat, forX: seq<bool>, forY: seq<bool>, o: nat, p: nat)
    requires |forX| == |forY| == 2 && o < 2 && p < 2 && !(if o == 0 then forX else forY)[p]
    ensures var tx := if o == 0 then x else y;
      Step(Step(Both(a, b, x, y, forX, forY), Load(o, p)), Store(p)) ==
        Both(if p == 0 then a + [tx] else a, if p == 1 then b + [tx] else b, x, y,
             if o == 0 then forX[p := true] else forX, if o == 1 then forY[p := true] else forY)
  {
    var n := Both(a, b, x, y, forX, forY);
    LoadThenStore(n, o, p);
    var n' := Step(Step(n, Load(o, p)), Store(p));
    assert n'.peers == [n'.peers[0], n'.peers[1]] && n'.orders == [n'.orders[0], n'.orders[1]];
  }

  lemma BothSubmitted(x: nat, y: nat)
    ensures After(Start(2), [Submit(x), Submit(y)]) == Both([], [], x, y, [false, false], [false, false])
  {
    var n0, n1 := Start(2), Network([FRESH, FRESH], [Order(x, [false, false])]);
    assert n0.peers == [FRESH, FRESH];
    assert Step(n0, Submit(x)) == n1 by {
      assert Step(n0, Submit(x)).orders[0].appended == [false, false];
    }
    var n2 := Step(n1, Submit(y));
    assert n2.orders[1].appended == [false, false];
    PathReaches([n0, n1, n2], [Submit(x), Submit(y)]);
  }

  /** Agreement is on multisets only: two peers can append the same two orders in opposite order. */
  lemma OrderCanDiffer(x: nat, y: nat)
    ensures var run := [Submit(x), Submit(y)] + [Load(0, 0), Store(0)] + [Load(1, 1), Store(1)]
                       + [Load(1, 0), Store(0)] + [Load(0, 1), Store(1)];
      var n := After(Start(2), run);
      Settled(n) && |n.peers| == 2 && n.peers[0].ledger == [x, y] && n.peers[1].ledger == [y, x]
  {
    var r0 := [Submit(x), Submit(y)];
    var r1 := r0 + [Load(0, 0), Store(0)];
    var r2 := r1 + [Load(1, 1), Store(1)];
    var r3 := r2 + [Load(1, 0), Store(0)];
    var n0, n1 := Both([], [], x, y, [false, false], [false, false]), Both([x], [], x, y, [true, false], [false, false]);
    var n2, n3 := Both([x], [y], x, y, [true, false], [false, true]), Both([x, y], [y], x, y, [true, false], [true, true]);
    BothSubmitted(x, y);
    FourAppends(x, y);
    WholeAppend(Start(2), r0, n0, 0, 0);
    WholeAppend(Start(2), r1, n1, 1, 1);
    WholeAppend(Start(2), r2, n2, 1, 0);
    WholeAppend(Start(2), r3, n3, 0, 1);
  }

  lemma FourAppends(x: nat, y: nat)
    ensures var n0, n1 := Both([], [], x, y, [false, false], [false, false]),
                          Both([x], [], x, y, [true, false], [false, false]);
      var n2, n3 := Both([x], [y], x, y, [true, false], [false, true]),
                    Both([x, y], [y], x, y, [true, false], [true, true]);
      && Step(Step(n0, Load(0, 0)), Store(0)) == n1
      && Step(Step(n1, Load(1, 1)), Store(1)) == n2
      && Step(Step(n2, Load(1, 0)), Store(0)) == n3
      && Step(Step(n3, Load(0, 1)), Store(1)) == Both([x, y], [y, x], x, y, [true, true], [true, true])
  {
    FirstAppend(x, y);
    SecondAppend(x, y);
    ThirdAppend(x, y);
    FourthAppend(x, y);
  }

  lemma FirstAppend(x: nat, y: nat)
    ensures Step(Step(Both([], [], x, y, [false, false], [false, false]), Load(0, 0)), Store(0)) ==
              Both([x], [], x, y, [true, false], [false, false])
  {
    BothAppend([], [], x, y, [false, false], [false, false], 0, 0);
    assert [] + [x] == [x];
    assert [false, false][0 := true] == [true, false];
  }

  lemma SecondAppend(x: nat, y: nat)
    ensures Step(Step(Both([x], [], x, y, [true, false], [false, false]), Load(1, 1)), Store(1)) ==
              Both([x], [y], x, y, [true, false], [false, true])
  {
    BothAppend([x], [], x, y, [true, false], [false, false], 1, 1);
    assert [] + [y] == [y];
    assert [false, false][1 := true] == [false, true];
  }

  lemma ThirdAppend(x: nat, y: nat)
    ensures Step(Step(Both([x], [y], x, y, [true, false], [false, true]), Load(1, 0)), Store(0)) ==
              Both([x, y], [y], x, y, [true, false], [true, true])
  {
    BothAppend([x], [y], x, y, [true, false], [false, true], 1, 0);
    assert [x] + [y] == [x, y];
    assert [false, true][0 := true] == [true, true];
  }

  lemma FourthAppend(x: nat, y: nat)
    ensures Step(Step(Both([x, y], [y], x, y, [true, false], [true, true]), Load(0, 1)), Store(1)) ==
              Both([x, y], [y, x], x, y, [true, true], [true, true])
  {
    BothAppend([x, y], [y], x, y, [true, false], [true, true], 0, 1);
    assert [y] + [x] == [y, x];
    assert [true, false][1 := true] == [true, true];
  }
}
