/** From whom to whom: how often each packet is sent, with its ends in the terms of the configuration alone. */
module Deliveries {
  import opened Sums
  import opened Endorsers
  import opened Events
  import opened Protocol
  import opened Accounts
  import opened Invariant
  import opened Runs
  import opened Guarantees
  import opened Traffic
  import C = Conservation
  import P = Preservation
  import K = Packets

  // ---- the packets of one transaction

  function Proposed(c: Config, n: nat, slot: nat): K.Packet
    requires c.peers >= 1 && c.transactions > 0 && slot < c.endorsements
  {
    K.Packet(K.User(n / c.transactions), K.Peer(AskedOf(c, n)[slot]), TransactionProposal)
  }

  function Endorsed(c: Config, n: nat, slot: nat): K.Packet
    requires c.peers >= 1 && c.transactions > 0 && slot < c.endorsements
  {
    K.Packet(K.Peer(AskedOf(c, n)[slot]), K.User(n / c.transactions), Endorsement)
  }

  function SentToOrderer(c: Config, n: nat): K.Packet
    requires c.peers >= 1 && c.transactions > 0
  {
    K.Packet(K.User(n / c.transactions), K.Peer(OrdererAsked(c, n)), Object.Transaction)
  }

  function SentToPeer(c: Config, n: nat, peer: nat): K.Packet
    requires c.peers >= 1
  {
    K.Packet(K.Peer(OrdererAsked(c, n)), K.Peer(peer), Object.Transaction)
  }

  const ASKED_FOR_HANDLE := K.Packet(K.User(0), K.RevocationAuthority, NonRevocationRequest)
  const HANDED_OUT := K.Packet(K.RevocationAuthority, K.User(0), NonRevocationHandle)

  // ---- how often a packet was sent so far

  /** Of an endorse goroutine: the proposal when it was taken, the endorsement when the work is done. */
  function SlotSent(c: Config, n: nat, slot: nat, pc: JobPc, k: K.Packet): nat
    requires c.peers >= 1 && c.transactions > 0 && slot < c.endorsements
  {
    One(!Untransferred(pc) && k == Proposed(c, n, slot)) + One(!Owes(pc, 3) && k == Endorsed(c, n, slot))
  }

  function PeerSent(c: Config, n: nat, p: nat, pc: JobPc, k: K.Packet): nat
    requires c.peers >= 1
  {
    One(!Untransferred(pc) && p != OrdererAsked(c, n) && k == SentToPeer(c, n, p))
  }

  function OrderSent(c: Config, n: nat, pc: JobPc, k: K.Packet): nat
    requires c.peers >= 1 && c.transactions > 0
  {
    One(!Untransferred(pc) && k == SentToOrderer(c, n))
  }

  function GrantSent(pc: JobPc, k: K.Packet): nat {
    One(!Untransferred(pc) && k == ASKED_FOR_HANDLE) + One(!Owes(pc, 0) && k == HANDED_OUT)
  }

  function SlotCounts(c: Config, n: nat, pcs: seq<JobPc>, k: K.Packet): (xs: seq<int>)
    requires c.peers >= 1 && c.transactions > 0 && |pcs| == c.endorsements
    ensures |xs| == |pcs| && forall i :: 0 <= i < |xs| ==> xs[i] == SlotSent(c, n, i, pcs[i], k)
  {
    seq(|pcs|, i requires 0 <= i < |pcs| => SlotSent(c, n, i, pcs[i], k))
  }

  function PeerCounts(c: Config, n: nat, pcs: seq<JobPc>, k: K.Packet): (xs: seq<int>)
    requires c.peers >= 1
    ensures |xs| == |pcs| && forall p :: 0 <= p < |xs| ==> xs[p] == PeerSent(c, n, p, pcs[p], k)
  {
    seq(|pcs|, p requires 0 <= p < |pcs| => PeerSent(c, n, p, pcs[p], k))
  }

  function TxSent(c: Config, n: nat, t: Tx, k: K.Packet): int
    requires c.peers >= 1 && c.transactions > 0 && |t.endorse| == c.endorsements
  {
    Sum(SlotCounts(c, n, t.endorse, k)) + OrderSent(c, n, t.order, k) + Sum(PeerCounts(c, n, t.validate, k))
  }

  ghost predicate Countable(c: Config, txs: seq<Tx>) {
    c.peers >= 1 && forall n :: 0 <= n < |txs| ==> c.transactions > 0 && |txs[n].endorse| == c.endorsements
  }

  ghost function TxCounts(c: Config, txs: seq<Tx>, k: K.Packet): (xs: seq<int>)
    requires Countable(c, txs)
    ensures |xs| == |txs| && forall n :: 0 <= n < |xs| ==> xs[n] == TxSent(c, n, txs[n], k)
  {
    seq(|txs|, n requires 0 <= n < |txs| => TxSent(c, n, txs[n], k))
  }

  function GrantCounts(grants: seq<Grant>, k: K.Packet): (xs: seq<int>)
    ensures |xs| == |grants| && forall r :: 0 <= r < |xs| ==> xs[r] == GrantSent(grants[r].pc, k)
  {
    seq(|grants|, r requires 0 <= r < |grants| => GrantSent(grants[r].pc, k))
  }

  ghost function SentSoFar(c: Config, s: State, k: K.Packet): int
    requires Countable(c, s.txs)
  {
    Sum(TxCounts(c, s.txs, k)) + Sum(GrantCounts(s.grants, k))
  }

  lemma Counted(c: Config, s: State)
    requires Shape(c, s)
    ensures Countable(c, s.txs)
  {
  }

  // ---- a step sends what it adds to the count

  lemma SlotChange(c: Config, n: nat, t: Tx, t': Tx, slot: nat, k: K.Packet)
    requires c.peers >= 1 && c.transactions > 0 && |t.endorse| == c.endorsements && C.OneSlot(t, t', slot)
    ensures TxSent(c, n, t', k) - TxSent(c, n, t, k)
         == SlotSent(c, n, slot, t'.endorse[slot], k) - SlotSent(c, n, slot, t.endorse[slot], k)
  {
    var xs, x := SlotCounts(c, n, t.endorse, k), SlotSent(c, n, slot, t'.endorse[slot], k);
    assert SlotCounts(c, n, t'.endorse, k) == xs[slot := x];
    SumUpdate(xs, slot, x);
  }

  lemma PeerChange(c: Config, n: nat, t: Tx, t': Tx, p: nat, k: K.Packet)
    requires c.peers >= 1 && c.transactions > 0 && |t.endorse| == c.endorsements && C.OneValidator(t, t', p)
    ensures TxSent(c, n, t', k) - TxSent(c, n, t, k)
         == PeerSent(c, n, p, t'.validate[p], k) - PeerSent(c, n, p, t.validate[p], k)
  {
    var xs, x := PeerCounts(c, n, t.validate, k), PeerSent(c, n, p, t'.validate[p], k);
    assert PeerCounts(c, n, t'.validate, k) == xs[p := x];
    SumUpdate(xs, p, x);
  }

  lemma TxChange(c: Config, s: State, s': State, n: nat, k: K.Packet)
    requires Countable(c, s.txs) && Countable(c, s'.txs)
    requires n < |s.txs| == |s'.txs| && s'.txs == s.txs[n := s'.txs[n]]
    ensures Sum(TxCounts(c, s'.txs, k)) - Sum(TxCounts(c, s.txs, k))
         == TxSent(c, n, s'.txs[n], k) - TxSent(c, n, s.txs[n], k)
  {
    var xs, x := TxCounts(c, s.txs, k), TxSent(c, n, s'.txs[n], k);
    assert TxCounts(c, s'.txs, k) == xs[n := x];
    SumUpdate(xs, n, x);
  }

  lemma GrantChange(grants: seq<Grant>, r: nat, g: Grant, k: K.Packet)
    requires r < |grants|
    ensures Sum(GrantCounts(grants[r := g], k)) - Sum(GrantCounts(grants, k)) ==
              GrantSent(g.pc, k) - GrantSent(grants[r].pc, k)
  {
    assert GrantCounts(grants[r := g], k) == GrantCounts(grants, k)[r := GrantSent(g.pc, k)];
    SumUpdate(GrantCounts(grants, k), r, GrantSent(g.pc, k));
  }

  /** The step adds to the count what it sends. */
  ghost predicate Adds(c: Config, s: State, s': State, k: K.Packet, sent: seq<K.Packet>) {
    && Countable(c, s.txs) && Countable(c, s'.txs)
    && SentSoFar(c, s', k) == SentSoFar(c, s, k) + multiset(sent)[k]
  }

  lemma SameTxs(c: Config, s: State, s': State, k: K.Packet)
    requires Shape(c, s) && s'.txs == s.txs && s'.grants == s.grants
    ensures Adds(c, s, s', k, [])
  {
    Counted(c, s);
  }

  // ---- endorse goroutines and their arrival

  lemma EndorserWork(c: Config, n: nat, slot: nat, pc: JobPc, k: K.Packet)
    requires c.peers >= 1 && c.transactions > 0 && slot < c.endorsements
    requires if pc.Working? then pc.at < 4 else C.Moving(pc)
    ensures SlotSent(c, n, slot, if pc.Working? then C.EndorseNext(pc.at) else C.Moved(pc), k)
         == SlotSent(c, n, slot, pc, k)
            + One(pc.Received? && k == Proposed(c, n, slot)) + One(pc == Working(3) && k == Endorsed(c, n, slot))
  {
  }

  lemma SlotMoves(c: Config, s: State, s': State, n: nat, slot: nat, k: K.Packet)
    requires Shape(c, s) && Shape(c, s') && C.OneTx(s, s', n) && C.OneSlot(s.txs[n], s'.txs[n], slot)
    requires slot < c.endorsements
    requires var pc := s.txs[n].endorse[slot];
      && (if pc.Working? then pc.at < 4 else C.Moving(pc))
      && s'.txs[n].endorse[slot] == if pc.Working? then C.EndorseNext(pc.at) else C.Moved(pc)
    ensures Countable(c, s.txs) && Countable(c, s'.txs)
    ensures var pc := s.txs[n].endorse[slot];
      SentSoFar(c, s', k) == SentSoFar(c, s, k)
        + One(pc.Received? && k == Proposed(c, n, slot)) + One(pc == Working(3) && k == Endorsed(c, n, slot))
  {
    Counted(c, s);
    Counted(c, s');
    EndorserWork(c, n, slot, s.txs[n].endorse[slot], k);
    SlotChange(c, n, s.txs[n], s'.txs[n], slot, k);
    TxChange(c, s, s', n, k);
  }

  lemma EndorserAdds(c: Config, s: State, n: nat, slot: nat, hit: bool, k: K.Packet)
    requires Shape(c, s) && EndorserCan(c, s, n, slot) && s.crash == NoCrash
    requires Shape(c, EndorserStep(c, s, n, slot, hit))
    ensures Adds(c, s, EndorserStep(c, s, n, slot, hit), k, StepTraffic(c, s, Label.Endorser(n, slot, hit)))
  {
    var s' := EndorserStep(c, s, n, slot, hit);
    C.EndorserChanges(c, s, n, slot, hit);
    assert !s.txs[n].endorse[slot].Received?;
    SlotMoves(c, s, s', n, slot, k);
  }

  lemma LoopEndorseAdds(c: Config, s: State, p: nat, k: K.Packet)
    requires Shape(c, s) && LoopCan(c, s, p) && s.loops[p].job.EndorseJob? && PeerOf(c, s.loops[p].job) == p
    requires Shape(c, LoopStep(c, s, p))
    ensures Adds(c, s, LoopStep(c, s, p), k, LoopTraffic(c, s, p))
  {
    C.LoopEndorseChanges(c, s, p);
    SlotMoves(c, s, LoopStep(c, s, p), s.loops[p].job.tx, s.loops[p].job.slot, k);
  }

  // ---- order goroutines and their arrival

  lemma OrderMoves(c: Config, s: State, s': State, n: nat, k: K.Packet)
    requires Shape(c, s) && Shape(c, s') && C.OneTx(s, s', n)
    requires s.txs[n].order.Received? && s'.txs[n] == s.txs[n].(order := Working(0))
    ensures Countable(c, s.txs) && Countable(c, s'.txs)
    ensures SentSoFar(c, s', k) == SentSoFar(c, s, k) + One(k == SentToOrderer(c, n))
  {
    Counted(c, s);
    Counted(c, s');
    TxChange(c, s, s', n, k);
  }

  lemma LoopOrderAdds(c: Config, s: State, p: nat, k: K.Packet)
    requires Shape(c, s) && LoopCan(c, s, p) && s.loops[p].job.OrderJob? && PeerOf(c, s.loops[p].job) == p
    requires Shape(c, LoopStep(c, s, p))
    ensures Adds(c, s, LoopStep(c, s, p), k, LoopTraffic(c, s, p))
  {
    C.LoopOrderChanges(c, s, p);
    OrderMoves(c, s, LoopStep(c, s, p), s.loops[p].job.tx, k);
  }

  lemma OrdererTx(c: Config, n: nat, t: Tx, t': Tx, k: K.Packet)
    requires c.peers >= 1 && c.transactions > 0 && |t.endorse| == c.endorsements
    requires t.order.Working? && t.order.at <= c.peers == |t.validate|
    requires var at := t.order.at;
      if at == 0 then t' == t.(order := C.OrderNext(c, at))
      else t.validate[at - 1].Unsent?
           && t' == t.(order := C.OrderNext(c, at), validate := t.validate[at - 1 := Received])
    ensures TxSent(c, n, t', k) == TxSent(c, n, t, k)
  {
    var at := t.order.at;
    if at > 0 {
      assert PeerCounts(c, n, t'.validate, k) == PeerCounts(c, n, t.validate, k);
    }
  }

  lemma OrdererMoves(c: Config, s: State, s': State, n: nat, hit: bool, k: K.Packet)
    requires Shape(c, s) && Shape(c, s') && C.OrdererMoved(c, s, s', n, hit)
    requires var t := s.txs[n]; t.order.at > 0 ==> t.validate[t.order.at - 1].Unsent?
    ensures Adds(c, s, s', k, [])
  {
    Counted(c, s);
    Counted(c, s');
    OrdererTx(c, n, s.txs[n], s'.txs[n], k);
    TxChange(c, s, s', n, k);
  }

  lemma OrdererAdds(c: Config, s: State, n: nat, hit: bool, k: K.Packet)
    requires Inv(c, s) && Enabled(c, s, Label.Orderer(n, hit)) && Shape(c, OrdererStep(c, s, n, hit))
    ensures Adds(c, s, OrdererStep(c, s, n, hit), k, [])
  {
    C.OrdererReady(c, s, n);
    C.OrdererChanges(c, s, n, hit);
    OrdererMoves(c, s, OrdererStep(c, s, n, hit), n, hit, k);
  }

  // ---- validate goroutines and their arrival

  lemma PeerMoves(c: Config, s: State, s': State, n: nat, p: nat, k: K.Packet)
    requires Shape(c, s) && Shape(c, s') && C.OneTx(s, s', n) && C.OneValidator(s.txs[n], s'.txs[n], p)
    requires var pc := s.txs[n].validate[p];
      && (pc.Working? || C.Moving(pc))
      && s'.txs[n].validate[p] == if pc.Working? then C.ValidateNext(pc.at) else C.Moved(pc)
    ensures Countable(c, s.txs) && Countable(c, s'.txs)
    ensures SentSoFar(c, s', k) == SentSoFar(c, s, k)
      + One(s.txs[n].validate[p].Received? && p != OrdererAsked(c, n) && k == SentToPeer(c, n, p))
  {
    Counted(c, s);
    Counted(c, s');
    PeerChange(c, n, s.txs[n], s'.txs[n], p, k);
    TxChange(c, s, s', n, k);
  }

  lemma LoopValidateAdds(c: Config, s: State, p: nat, k: K.Packet)
    requires Shape(c, s) && LoopCan(c, s, p) && s.loops[p].job.ValidateJob? && PeerOf(c, s.loops[p].job) == p
    requires Shape(c, LoopStep(c, s, p))
    ensures Adds(c, s, LoopStep(c, s, p), k, LoopTraffic(c, s, p))
  {
    C.LoopValidateChanges(c, s, p);
    PeerMoves(c, s, LoopStep(c, s, p), s.loops[p].job.tx, p, k);
  }

  lemma ValidatorAdds(c: Config, s: State, n: nat, p: nat, hit: bool, k: K.Packet)
    requires Shape(c, s) && ValidatorCan(c, s, n, p) && s.crash == NoCrash
    requires Shape(c, ValidatorStep(c, s, n, p, hit))
    ensures Adds(c, s, ValidatorStep(c, s, n, p, hit), k, [])
  {
    var s' := ValidatorStep(c, s, n, p, hit);
    if s'.crash == NoCrash {
      C.ValidatorChanges(c, s, n, p, hit);
      assert !s.txs[n].validate[p].Received?;
      PeerMoves(c, s, s', n, p, k);
    } else {
      SameTxs(c, s, s', k);
    }
  }

  lemma LoopAdds(c: Config, s: State, p: nat, k: K.Packet)
    requires Shape(c, s) && LoopCan(c, s, p) && PeerOf(c, s.loops[p].job) == p && Shape(c, LoopStep(c, s, p))
    ensures Adds(c, s, LoopStep(c, s, p), k, LoopTraffic(c, s, p))
  {
    match s.loops[p].job
    case EndorseJob(_, _) => LoopEndorseAdds(c, s, p, k);
    case OrderJob(_) => LoopOrderAdds(c, s, p, k);
    case ValidateJob(_, _) => LoopValidateAdds(c, s, p, k);
  }

  // ---- submitTransaction

  /** A message that was sent but not taken from its channel is not on the network yet. */
  lemma UserTx(c: Config, n: nat, t: Tx, t': Tx, k: K.Packet)
    requires c.peers >= 1 && c.transactions > 0 && |t.endorse| == |t'.endorse| == c.endorsements
    requires C.UserMoved(c, t, t')
    ensures TxSent(c, n, t', k) == TxSent(c, n, t, k)
  {
    assert SlotCounts(c, n, t'.endorse, k) == SlotCounts(c, n, t.endorse, k);
  }

  lemma UserGrants(c: Config, s: State, n: nat, k: K.Packet)
    requires Shape(c, s) && UserCan(c, s, n)
    requires s.txs[n].user.Requesting? ==> s.grants[c.users + n].pc.Unsent?
    ensures Sum(GrantCounts(UserStep(c, s, n).grants, k)) == Sum(GrantCounts(s.grants, k))
  {
    var r := c.users + n;
    C.UserFrame(c, s, n);
    if s.txs[n].user.Requesting? {
      GrantChange(s.grants, r, s.grants[r].(pc := Received), k);
    } else if s.txs[n].user.Awaiting? {
      GrantChange(s.grants, r, s.grants[r].(pc := Releasing), k);
    }
  }

  lemma UserAdds(c: Config, s: State, n: nat, k: K.Packet)
    requires Inv(c, s) && Enabled(c, s, User(n)) && Shape(c, UserStep(c, s, n))
    ensures Adds(c, s, UserStep(c, s, n), k, [])
  {
    var s' := UserStep(c, s, n);
    C.UserCanMove(c, s, n);
    Counted(c, s);
    Counted(c, s');
    C.UserFrame(c, s, n);
    UserTx(c, n, s.txs[n], s'.txs[n], k);
    UserGrants(c, s, n, k);
    TxChange(c, s, s', n, k);
  }

  // ---- authority, grants and the main goroutine

  lemma GrantMoves(c: Config, s: State, s': State, r: nat, k: K.Packet)
    requires Shape(c, s) && C.OneGrant(s, s', r)
    ensures Countable(c, s.txs) && Countable(c, s'.txs)
    ensures SentSoFar(c, s', k) - SentSoFar(c, s, k) == GrantSent(s'.grants[r].pc, k) - GrantSent(s.grants[r].pc, k)
  {
    Counted(c, s);
    GrantChange(s.grants, r, s'.grants[r], k);
  }

  /** What the move of a grant adds to what it has sent. */
  lemma GrantWork(pc: JobPc, k: K.Packet)
    requires InLoop(pc) || pc == Working(0) || pc.Releasing?
    ensures GrantSent(C.GrantNext(pc), k) - GrantSent(pc, k)
         == One(pc.Received? && k == ASKED_FOR_HANDLE) + One(pc.Working? && k == HANDED_OUT)
  {
  }

  lemma AuthorityAdds(c: Config, s: State, k: K.Packet)
    requires Shape(c, s) && AuthorityCan(c, s) && s.crash == NoCrash
    ensures Adds(c, s, AuthorityStep(c, s), k, StepTraffic(c, s, Label.Authority))
  {
    C.AuthorityChanges(c, s);
    GrantWork(s.grants[s.authority.job].pc, k);
    GrantMoves(c, s, AuthorityStep(c, s), s.authority.job, k);
  }

  lemma GranterAdds(c: Config, s: State, r: nat, k: K.Packet)
    requires Shape(c, s) && GranterCan(c, s, r) && s.crash == NoCrash
    ensures Adds(c, s, GranterStep(c, s, r), k, StepTraffic(c, s, Granter(r)))
  {
    C.GranterChanges(c, s, r);
    GrantWork(s.grants[r].pc, k);
    GrantMoves(c, s, GranterStep(c, s, r), r, k);
  }

  /** A launch that asks for a handle, or that gets it. */
  lemma LaunchAdds(c: Config, s: State, u: nat, k: K.Packet)
    requires Shape(c, s) && MainCan(c, s) && u < c.users && c.revoke
    requires s.main == AwaitingHandle(u) || (s.main == Launching(u) && s.grants[u].pc.Unsent?)
    ensures Adds(c, s, MainStep(c, s), k, [])
  {
    var s' := MainStep(c, s);
    Counted(c, s);
    GrantChange(s.grants, u, s'.grants[u], k);
  }

  lemma MainAdds(c: Config, s: State, k: K.Packet)
    requires Inv(c, s) && Enabled(c, s, Main)
    ensures Adds(c, s, MainStep(c, s), k, [])
  {
    if c.revoke && !Joined(s.main) && s.main != Launching(c.users) {
      LaunchAdds(c, s, s.main.next, k);
    } else {
      SameTxs(c, s, MainStep(c, s), k);
    }
  }

  lemma GoroutineAdds(c: Config, s: State, l: Label, k: K.Packet)
    requires Inv(c, s) && Enabled(c, s, l) && Shape(c, Apply(c, s, l))
    requires l.Endorser? || l.Orderer? || l.Validator? || l.Granter?
    ensures Adds(c, s, Apply(c, s, l), k, StepTraffic(c, s, l))
  {
    match l
    case Endorser(n, slot, hit) => EndorserAdds(c, s, n, slot, hit, k);
    case Orderer(n, hit) => OrdererAdds(c, s, n, hit, k);
    case Validator(n, p, hit) => ValidatorAdds(c, s, n, p, hit, k);
    case Granter(r) => GranterAdds(c, s, r, k);
  }

  lemma ProcessAdds(c: Config, s: State, l: Label, k: K.Packet)
    requires Inv(c, s) && Enabled(c, s, l) && Shape(c, Apply(c, s, l))
    requires l.Main? || l.User? || l.Loop? || l.Authority? || l.Tick?
    ensures Adds(c, s, Apply(c, s, l), k, StepTraffic(c, s, l))
  {
    match l
    case Main => MainAdds(c, s, k);
    case User(n) => UserAdds(c, s, n, k);
    case Loop(p) =>
      assert LoopInv(c, s, p);
      LoopAdds(c, s, p, k);
    case Authority => AuthorityAdds(c, s, k);
    case Tick => SameTxs(c, s, Apply(c, s, l), k);
  }

  /** Every step sends the packets that it adds to the count. */
  lemma StepAdds(c: Config, s: State, l: Label, k: K.Packet)
    requires Inv(c, s) && Enabled(c, s, l)
    ensures Adds(c, s, Apply(c, s, l), k, StepTraffic(c, s, l))
  {
    P.StepKeepsInv(c, s, l);
    if l.Endorser? || l.Orderer? || l.Validator? || l.Granter? {
      GoroutineAdds(c, s, l, k);
    } else {
      ProcessAdds(c, s, l, k);
    }
  }

  // ---- the setup

  function OrgDue(orgs: nat, k: K.Packet): nat {
    match k
    case Packet(Root, Org(o), what) => One(o < orgs && (what == Nonce || what == Credentials))
    case Packet(Org(o), Root, what) => One(o < orgs && what == CredRequest)
    case _ => 0
  }

  /** Nonce and credentials come from the organisation that serves the user, and its request goes there. */
  function UserDue(users: nat, issuer: nat -> nat, k: K.Packet): nat {
    match k
    case Packet(Org(o), User(u), what) => One(u < users && o == issuer(u) && (what == Nonce || what == Credentials))
    case Packet(User(u), Org(o), what) => One(u < users && o == issuer(u) && what == CredRequest)
    case _ => 0
  }

  /** How often the packet is among these. */
  function Times(packets: seq<K.Packet>, k: K.Packet): nat {
    if packets == [] then 0
    else Times(packets[..|packets| - 1], k) + One(packets[|packets| - 1] == k)
  }

  lemma {:induction false} TimesIs(packets: seq<K.Packet>, k: K.Packet)
    ensures Times(packets, k) == multiset(packets)[k]
  {
    if packets != [] {
      TimesIs(packets[..|packets| - 1], k);
      assert packets == packets[..|packets| - 1] + [packets[|packets| - 1]];
    }
  }

  lemma {:induction false} Together(xs: seq<K.Packet>, ys: seq<K.Packet>, k: K.Packet)
    ensures Times(xs + ys, k) == Times(xs, k) + Times(ys, k)
  {
    if ys == [] {
      assert xs + ys == xs;
    } else {
      assert (xs + ys)[..|xs + ys| - 1] == xs + ys[..|ys| - 1];
      Together(xs, ys[..|ys| - 1], k);
    }
  }

  lemma IssuingSent(from: K.Name, to: K.Name, k: K.Packet)
    ensures Times(Issuing(from, to), k)
         == One(k.from == from && k.to == to && (k.what == Nonce || k.what == Credentials))
            + One(k.from == to && k.to == from && k.what == CredRequest)
  {
    var x, y, z := K.Packet(from, to, Nonce), K.Packet(to, from, CredRequest), K.Packet(from, to, Credentials);
    assert [x, y, z][..2] == [x, y] && [x, y][..1] == [x] && [x][..0] == [];
    assert Times([x], k) == One(x == k);
    assert Times([x, y], k) == One(x == k) + One(y == k);
  }

  lemma OrgDueNext(orgs: nat, k: K.Packet)
    ensures OrgDue(orgs + 1, k) == OrgDue(orgs, k) + Times(Issuing(K.Root, K.Org(orgs)), k)
  {
    IssuingSent(K.Root, K.Org(orgs), k);
  }

  lemma UserDueNext(users: nat, issuer: nat -> nat, k: K.Packet)
    ensures UserDue(users + 1, issuer, k) ==
              UserDue(users, issuer, k) + Times(Issuing(K.Org(issuer(users)), K.User(users)), k)
  {
    IssuingSent(K.Org(issuer(users)), K.User(users), k);
  }

  lemma {:induction false} OrgsServed(orgs: nat, k: K.Packet)
    ensures Times(OrgSetup(orgs), k) == OrgDue(orgs, k)
  {
    if orgs > 0 {
      OrgsServed(orgs - 1, k);
      Together(OrgSetup(orgs - 1), Issuing(K.Root, K.Org(orgs - 1)), k);
      OrgDueNext(orgs - 1, k);
    }
  }

  lemma {:induction false} UsersServed(users: nat, issuer: nat -> nat, k: K.Packet)
    ensures Times(UserSetup(users, issuer), k) == UserDue(users, issuer, k)
  {
    if users > 0 {
      UsersServed(users - 1, issuer, k);
      Together(UserSetup(users - 1, issuer), Issuing(K.Org(issuer(users - 1)), K.User(users - 1)), k);
      UserDueNext(users - 1, issuer, k);
    }
  }

  lemma SetupServed(c: Config, issuer: nat -> nat, k: K.Packet)
    ensures multiset(OrgSetup(c.orgs) + UserSetup(c.users, issuer))[k] ==
              OrgDue(c.orgs, k) + UserDue(c.users, issuer, k)
  {
    OrgsServed(c.orgs, k);
    UsersServed(c.users, issuer, k);
    TimesIs(OrgSetup(c.orgs), k);
    TimesIs(UserSetup(c.users, issuer), k);
  }

  lemma NothingSent(c: Config, n: nat, k: K.Packet)
    requires c.peers >= 1 && c.transactions > 0
    ensures TxSent(c, n, InitialTx(c), k) == 0
  {
    SumConst(SlotCounts(c, n, InitialTx(c).endorse, k), 0);
    SumConst(PeerCounts(c, n, InitialTx(c).validate, k), 0);
  }

  lemma InitSent(c: Config, k: K.Packet)
    requires Valid(c)
    ensures Countable(c, Init(c).txs) && SentSoFar(c, Init(c), k) == 0
  {
    InitShape(c);
    Counted(c, Init(c));
    forall n | 0 <= n < |Init(c).txs| ensures TxSent(c, n, Init(c).txs[n], k) == 0 {
      NothingSent(c, n, k);
    }
    SumConst(TxCounts(c, Init(c).txs, k), 0);
    SumConst(GrantCounts(Init(c).grants, k), 0);
  }

  // ---- along a run

  /** In every reachable state, each packet was sent as often as the goroutines got past its transfer. */
  lemma {:induction false} PacketsSent(c: Config, issuer: nat -> nat, run: Run, k: K.Packet)
    requires Valid(c) && Feasible(c, run)
    ensures Countable(c, After(c, run).txs)
    ensures multiset(RunTraffic(c, issuer, run))[k] ==
              OrgDue(c.orgs, k) + UserDue(c.users, issuer, k) + SentSoFar(c, After(c, run), k)
  {
    if run == [] {
      SetupServed(c, issuer, k);
      InitSent(c, k);
    } else {
      PacketsSent(c, issuer, Front(run), k);
      RunInv(c, Front(run));
      StepAdds(c, After(c, Front(run)), Last(run), k);
    }
  }

  // ---- in a finished simulation

  /** How often the packet belongs to transaction n: one proposal to each peer of its window and one endorsement
      back, the transaction to its orderer, and from there to each other peer. */
  function TxDue(c: Config, n: nat, k: K.Packet): nat
    requires c.peers >= 1 && c.transactions > 0
  {
    var user, orderer := n / c.transactions, PeerByHash(c.sha3(c.message(n) + "-order"), c.peers);
    match k
    case Packet(User(u), Peer(p), TransactionProposal) => if u == user then multiset(AskedOf(c, n))[p] else 0
    case Packet(Peer(p), User(u), Endorsement) => if u == user then multiset(AskedOf(c, n))[p] else 0
    case Packet(User(u), Peer(p), Transaction) => One(u == user && p == orderer)
    case Packet(Peer(o), Peer(p), Transaction) => One(o == orderer && p != orderer && p < c.peers)
    case _ => 0
  }

  function TxsDue(c: Config, txs: nat, k: K.Packet): nat
    requires c.peers >= 1 && (txs > 0 ==> c.transactions > 0)
  {
    if txs == 0 then 0 else TxsDue(c, txs - 1, k) + TxDue(c, txs - 1, k)
  }

  /** Every request for a handle and every handle, of all users, are user 0's. */
  function RevocationDue(c: Config, k: K.Packet): nat {
    if c.revoke && (k == ASKED_FOR_HANDLE || k == HANDED_OUT) then c.users + c.users * c.transactions else 0
  }

  ghost function Due(c: Config, issuer: nat -> nat, k: K.Packet): nat
    requires Valid(c)
  {
    InitShape(c);
    OrgDue(c.orgs, k) + UserDue(c.users, issuer, k) + TxsDue(c, c.users * c.transactions, k) + RevocationDue(c, k)
  }

  /** How often the packet is one of the first `slots` proposals and endorsements. */
  function WindowDue(c: Config, n: nat, slots: nat, k: K.Packet): nat
    requires c.peers >= 1 && c.transactions > 0 && slots <= c.endorsements
  {
    match k
    case Packet(User(u), Peer(p), TransactionProposal) =>
      if u == n / c.transactions then multiset(AskedOf(c, n)[..slots])[p] else 0
    case Packet(Peer(p), User(u), Endorsement) =>
      if u == n / c.transactions then multiset(AskedOf(c, n)[..slots])[p] else 0
    case _ => 0
  }

  lemma SlotDue(c: Config, n: nat, slot: nat, pc: JobPc, k: K.Packet)
    requires c.peers >= 1 && c.transactions > 0 && slot < c.endorsements && Replied(pc)
    ensures WindowDue(c, n, slot + 1, k) == WindowDue(c, n, slot, k) + SlotSent(c, n, slot, pc, k)
  {
    var asked := AskedOf(c, n);
    assert asked[..slot + 1] == asked[..slot] + [asked[slot]];
  }

  lemma {:induction false} SlotsDue(c: Config, n: nat, pcs: seq<JobPc>, k: K.Packet, slots: nat)
    requires c.peers >= 1 && c.transactions > 0 && |pcs| == c.endorsements && slots <= c.endorsements
    requires forall i :: 0 <= i < |pcs| ==> Replied(pcs[i])
    ensures Sum(SlotCounts(c, n, pcs, k)[..slots]) == WindowDue(c, n, slots, k)
  {
    if slots > 0 {
      var xs := SlotCounts(c, n, pcs, k);
      SlotsDue(c, n, pcs, k, slots - 1);
      SlotDue(c, n, slots - 1, pcs[slots - 1], k);
      assert xs[..slots] == xs[..slots - 1] + [xs[slots - 1]];
      SumAppend(xs[..slots - 1], [xs[slots - 1]]);
      assert [xs[slots - 1]][1..] == [];
    }
  }

  function PeersDue(c: Config, n: nat, peers: nat, k: K.Packet): nat
    requires c.peers >= 1
  {
    match k
    case Packet(Peer(o), Peer(p), Transaction) =>
      One(o == OrdererAsked(c, n) && p != OrdererAsked(c, n) && p < peers)
    case _ => 0
  }

  lemma {:induction false} PeersReachedDue(c: Config, n: nat, pcs: seq<JobPc>, k: K.Packet, peers: nat)
    requires c.peers >= 1 && peers <= |pcs| && forall i :: 0 <= i < |pcs| ==> Replied(pcs[i])
    ensures Sum(PeerCounts(c, n, pcs, k)[..peers]) == PeersDue(c, n, peers, k)
  {
    if peers > 0 {
      var xs := PeerCounts(c, n, pcs, k);
      PeersReachedDue(c, n, pcs, k, peers - 1);
      assert xs[..peers] == xs[..peers - 1] + [xs[peers - 1]];
      SumAppend(xs[..peers - 1], [xs[peers - 1]]);
      assert [xs[peers - 1]][1..] == [];
    }
  }

  lemma CompleteSent(c: Config, n: nat, t: Tx, k: K.Packet)
    requires c.peers >= 1 && c.transactions > 0 && Complete(c, t)
    ensures TxSent(c, n, t, k) == TxDue(c, n, k)
  {
    SlotsDue(c, n, t.endorse, k, c.endorsements);
    PeersReachedDue(c, n, t.validate, k, c.peers);
    assert AskedOf(c, n)[..c.endorsements] == AskedOf(c, n);
    assert SlotCounts(c, n, t.endorse, k)[..c.endorsements] == SlotCounts(c, n, t.endorse, k);
    assert PeerCounts(c, n, t.validate, k)[..c.peers] == PeerCounts(c, n, t.validate, k);
  }

  lemma AllCompleteNext(c: Config, txs: seq<Tx>, k: K.Packet, m: nat)
    requires Countable(c, txs) && m < |txs| && c.transactions > 0 && Complete(c, txs[m])
    ensures Sum(TxCounts(c, txs, k)[..m + 1]) == Sum(TxCounts(c, txs, k)[..m]) + TxDue(c, m, k)
  {
    var xs := TxCounts(c, txs, k);
    CompleteSent(c, m, txs[m], k);
    assert xs[..m + 1] == xs[..m] + [xs[m]];
    SumAppend(xs[..m], [xs[m]]);
    assert [xs[m]][1..] == [];
  }

  lemma {:induction false} AllComplete(c: Config, txs: seq<Tx>, k: K.Packet, m: nat)
    requires Countable(c, txs) && m <= |txs| && (m > 0 ==> c.transactions > 0)
    requires forall n :: 0 <= n < |txs| ==> Complete(c, txs[n])
    ensures Sum(TxCounts(c, txs, k)[..m]) == TxsDue(c, m, k)
  {
    if m > 0 {
      AllComplete(c, txs, k, m - 1);
      AllCompleteNext(c, txs, k, m - 1);
    }
  }

  lemma GrantsDue(c: Config, grants: seq<Grant>, k: K.Packet)
    requires |grants| == c.users + c.users * c.transactions
    requires forall r :: 0 <= r < |grants| ==> if c.revoke then Replied(grants[r].pc) else grants[r].pc.Unsent?
    ensures Sum(GrantCounts(grants, k)) == RevocationDue(c, k)
  {
    SumConst(GrantCounts(grants, k), One(c.revoke && (k == ASKED_FOR_HANDLE || k == HANDED_OUT)));
  }

  lemma FinishedSent(c: Config, s: State, k: K.Packet)
    requires Inv(c, s) && s.main.Finished?
    ensures Countable(c, s.txs)
    ensures SentSoFar(c, s, k) == TxsDue(c, c.users * c.transactions, k) + RevocationDue(c, k)
  {
    JoinedIsDrained(c, s);
    Counted(c, s);
    AllComplete(c, s.txs, k, |s.txs|);
    assert TxCounts(c, s.txs, k)[..|s.txs|] == TxCounts(c, s.txs, k);
    GrantsDue(c, s.grants, k);
  }

  /** Whatever the interleaving, a finished simulation has sent every packet, from each sender to each receiver,
      exactly as often as the configuration says. */
  lemma FinishedTraffic(c: Config, issuer: nat -> nat, run: Run, k: K.Packet)
    requires Valid(c) && Feasible(c, run) && After(c, run).crash == NoCrash && After(c, run).main.Finished?
    ensures multiset(RunTraffic(c, issuer, run))[k] == Due(c, issuer, k)
  {
    RunInv(c, run);
    PacketsSent(c, issuer, run, k);
    FinishedSent(c, After(c, run), k);
  }

  /** Two interleavings of one simulation send the same packets, in whatever order. */
  lemma TrafficIsOrderless(c: Config, issuer: nat -> nat, run: Run, other: Run)
    requires Valid(c) && Feasible(c, run) && After(c, run).crash == NoCrash && After(c, run).main.Finished?
    requires Feasible(c, other) && After(c, other).crash == NoCrash && After(c, other).main.Finished?
    ensures multiset(RunTraffic(c, issuer, run)) == multiset(RunTraffic(c, issuer, other))
  {
    forall k ensures multiset(RunTraffic(c, issuer, run))[k] == multiset(RunTraffic(c, issuer, other))[k] {
      FinishedTraffic(c, issuer, run, k);
      FinishedTraffic(c, issuer, other, k);
    }
  }
}
