/** Conservation: what is stored plus what is still owed never changes, except that every step pays one
    step and every cache hit saves one proof verification. */
module Conservation {
  import opened Sums
  import opened Events
  import opened Protocol
  import opened Accounts
  import opened Invariant
  import P = Preservation

  /** A label that moves through an identity check which hits the cache. */
  ghost predicate Hit(c: Config, s: State, l: Label)
    requires Shape(c, s) && Enabled(c, s, l)
  {
    match l
    case Endorser(n, slot, hit) => hit && var pc := s.txs[n].endorse[slot]; pc == Working(1) || pc == Working(2)
    case Orderer(n, hit) => hit && s.txs[n].order == Working(0)
    case Validator(n, p, hit) => hit && s.txs[n].validate[p] == Working(2)
    case _ => false
  }

  /** A step costs one step, and a cache hit one proof verification. */
  function Cost(w: Weight, hit: bool): nat {
    match w
    case Steps => 1
    case Count(e) => One(e == Crypto(CredVerify) && hit)
    case _ => 0
  }

  ghost function Spent(c: Config, s: State, l: Label, w: Weight): nat
    requires Shape(c, s) && Enabled(c, s, l)
  {
    if l == Tick then 0 else Cost(w, Hit(c, s, l))
  }

  ghost predicate Pays(c: Config, s: State, l: Label, w: Weight)
    requires Shape(c, s) && Enabled(c, s, l)
  {
    var s' := Apply(c, s, l);
    Shape(c, s') && Balance(c, w, s') == Balance(c, w, s) - Spent(c, s, l, w)
  }

  lemma KeepsShape(c: Config, s: State, l: Label)
    requires Inv(c, s) && Enabled(c, s, l)
    ensures Shape(c, Apply(c, s, l))
  {
    P.StepKeepsInv(c, s, l);
  }

  // ---- what a step stores

  /** Events recorded, and permits given back (or, if negative, taken) at one peer and at the authority. */
  datatype Gain = Gain(events: multiset<Event>, peer: nat, endorse: int, validate: int, grant: int)

  function Only(events: multiset<Event>): Gain {
    Gain(events, 0, 0, 0, 0)
  }

  ghost predicate Stores(c: Config, s: State, s': State, gain: Gain)
    requires Shape(c, s)
  {
    && s'.events == s.events + gain.events
    && |s'.endorsePermits| == |s'.validatePermits| == c.peers
    && (forall q :: 0 <= q < c.peers ==>
          s'.endorsePermits[q] == s.endorsePermits[q] + if q == gain.peer then gain.endorse else 0)
    && (forall q :: 0 <= q < c.peers ==>
          s'.validatePermits[q] == s.validatePermits[q] + if q == gain.peer then gain.validate else 0)
    && s'.grantPermits == s.grantPermits + gain.grant
  }

  function Worth(c: Config, w: Weight, gain: Gain): int {
    match w
    case Steps => 0
    case Count(e) => gain.events[e]
    case EndorsePermit(p) => if p == gain.peer && p < c.peers then gain.endorse else 0
    case ValidatePermit(p) => if p == gain.peer && p < c.peers then gain.validate else 0
    case GrantPermit => gain.grant
  }

  lemma StoredBy(c: Config, s: State, s': State, gain: Gain, w: Weight)
    requires Shape(c, s) && Shape(c, s') && Stores(c, s, s', gain)
    ensures Stored(c, w, s') == Stored(c, w, s) + Worth(c, w, gain)
  {
    match w
    case Count(_) =>
    case EndorsePermit(p) => if p == gain.peer {} else {}
    case ValidatePermit(p) => if p == gain.peer {} else {}
    case _ =>
  }

  // ---- a step within one transaction

  ghost predicate OneTx(s: State, s': State, n: nat) {
    n < |s.txs| == |s'.txs| && s'.txs == s.txs[n := s'.txs[n]] && s'.grants == s.grants && s'.main == s.main
  }

  /** A step within one transaction changes the balance by what it stores and by what its weight changes. */
  lemma TxPays(c: Config, s: State, s': State, n: nat, gain: Gain, w: Weight, cost: int)
    requires Shape(c, s) && Shape(c, s') && OneTx(s, s', n) && Stores(c, s, s', gain)
    requires Worth(c, w, gain) + TxWeight(c, w, n, s'.txs[n]) == TxWeight(c, w, n, s.txs[n]) - cost
    ensures Balance(c, w, s') == Balance(c, w, s) - cost
  {
    StoredBy(c, s, s', gain, w);
    TxSet(c, w, s.txs, n, s'.txs[n]);
  }

  /** Only one endorse goroutine of the transaction has moved. */
  ghost predicate OneSlot(t: Tx, t': Tx, slot: nat) {
    && slot < |t.endorse| == |t'.endorse| && t'.endorse == t.endorse[slot := t'.endorse[slot]]
    && t'.user == t.user && t'.taken == t.taken && t'.order == t.order && t'.validate == t.validate
  }

  lemma SlotWeight(c: Config, n: nat, t: Tx, t': Tx, slot: nat, w: Weight)
    requires c.peers >= 1 && OneSlot(t, t', slot)
    ensures TxWeight(c, w, n, t') - TxWeight(c, w, n, t) ==
              EndorseWeight(c, w, n, slot, t'.endorse[slot]) - EndorseWeight(c, w, n, slot, t.endorse[slot])
  {
    EndorseSet(c, w, n, t.endorse, slot, t'.endorse[slot]);
  }

  /** Only one validate goroutine of the transaction has moved. */
  ghost predicate OneValidator(t: Tx, t': Tx, p: nat) {
    && p < |t.validate| == |t'.validate| && t'.validate == t.validate[p := t'.validate[p]]
    && t'.user == t.user && t'.taken == t.taken && t'.order == t.order && t'.endorse == t.endorse
  }

  lemma ValidatorWeight(c: Config, n: nat, t: Tx, t': Tx, p: nat, w: Weight)
    requires c.peers >= 1 && OneValidator(t, t', p)
    ensures TxWeight(c, w, n, t') - TxWeight(c, w, n, t) ==
              ValidateWeight(c, w, n, p, t'.validate[p]) - ValidateWeight(c, w, n, p, t.validate[p])
  {
    ValidateSet(c, w, n, t.validate, p, t'.validate[p]);
  }

  // ---- moves of a goroutine outside its work

  function Moved(pc: JobPc): JobPc {
    match pc
    case Received => Acquiring
    case Acquiring => Working(0)
    case Replying => Releasing
    case _ => Gone
  }

  /** Permits given back by the move out of pc. */
  function Returned(pc: JobPc): int {
    if pc.Acquiring? then -1 else if pc.Releasing? then 1 else 0
  }

  predicate Moving(pc: JobPc) {
    !pc.Unsent? && !pc.Working? && !pc.Gone?
  }

  // ---- endorse goroutines

  function EndorseNext(at: nat): JobPc {
    if at < 3 then Working(at + 1) else Replying
  }

  /** How often endorsement work number `at` records e. */
  function EndorseEmission(at: nat, hit: bool, e: Event): nat {
    One(
      || (at == 0 && e == Crypto(VerifyNym))
      || ((at == 1 || at == 2) && (e == Crypto(Hash) || (!hit && e == Crypto(CredVerify))))
      || (at == 3 && (e == Crypto(SignSchnorr) || e == Transfer(Endorsement))))
  }

  lemma EndorseEmitted(at: nat, hit: bool, e: Event)
    requires at < 4
    ensures EndorseEvents(at, hit)[e] == EndorseEmission(at, hit, e)
  {
    if at == 0 {} else if at == 3 {} else if hit {} else {}
  }

  lemma EndorseWorkCount(at: nat, hit: bool, e: Event)
    requires at < 4
    ensures EndorseCount(e, EndorseNext(at)) + EndorseEmission(at, hit, e)
         == EndorseCount(e, Working(at)) - One(e == Crypto(CredVerify) && hit && (at == 1 || at == 2))
  {
  }

  lemma EndorseWorkWeight(c: Config, n: nat, slot: nat, at: nat, hit: bool, w: Weight)
    requires c.peers >= 1 && at < 4
    ensures Worth(c, w, Only(EndorseEvents(at, hit))) + EndorseWeight(c, w, n, slot, EndorseNext(at))
         == EndorseWeight(c, w, n, slot, Working(at)) - Cost(w, hit && (at == 1 || at == 2))
  {
    match w
    case Count(e) =>
      EndorseEmitted(at, hit, e);
      EndorseWorkCount(at, hit, e);
    case _ =>
  }

  function EndorseMoveGain(c: Config, n: nat, slot: nat, pc: JobPc): Gain
    requires c.peers >= 1
  {
    Gain(if pc.Received? then Sent(TransactionProposal) else multiset{}, EndorserAt(c, n, slot), Returned(pc), 0, 0)
  }

  lemma EndorseMoveCount(pc: JobPc, e: Event)
    requires Moving(pc)
    ensures EndorseCount(e, Moved(pc)) + One(pc.Received? && e == Transfer(TransactionProposal)) == EndorseCount(e, pc)
  {
  }

  lemma EndorseMoveWeight(c: Config, n: nat, slot: nat, pc: JobPc, w: Weight)
    requires c.peers >= 1 && Moving(pc)
    ensures Worth(c, w, EndorseMoveGain(c, n, slot, pc)) + EndorseWeight(c, w, n, slot, Moved(pc))
         == EndorseWeight(c, w, n, slot, pc) - Cost(w, false)
  {
    match w
    case Count(e) =>
      EndorseMoveCount(pc, e);
      if pc.Received? {} else {}
    case EndorsePermit(p) => if p == EndorserAt(c, n, slot) {} else {}
    case _ =>
  }

  function EndorserGain(c: Config, n: nat, slot: nat, pc: JobPc, hit: bool): Gain
    requires c.peers >= 1
  {
    if pc.Working? then Only(EndorseEvents(pc.at, hit)) else EndorseMoveGain(c, n, slot, pc)
  }

  /** What a step of an endorse goroutine changes. */
  ghost predicate EndorserMoved(c: Config, s: State, s': State, n: nat, slot: nat, hit: bool)
    requires Shape(c, s)
  {
    && OneTx(s, s', n) && OneSlot(s.txs[n], s'.txs[n], slot)
    && var pc := s.txs[n].endorse[slot];
    && s'.txs[n].endorse[slot] == (if pc.Working? then EndorseNext(pc.at) else Moved(pc))
    && Stores(c, s, s', EndorserGain(c, n, slot, pc, hit))
  }

  lemma EndorserChanges(c: Config, s: State, n: nat, slot: nat, hit: bool)
    requires Shape(c, s) && EndorserCan(c, s, n, slot)
    ensures EndorserMoved(c, s, EndorserStep(c, s, n, slot, hit), n, slot, hit)
  {
    match s.txs[n].endorse[slot]
    case Working(at) =>
    case Replying =>
    case Releasing =>
  }

  lemma EndorserWeight(c: Config, n: nat, slot: nat, pc: JobPc, hit: bool, w: Weight)
    requires c.peers >= 1 && (if pc.Working? then pc.at < 4 else Moving(pc))
    ensures Worth(c, w, EndorserGain(c, n, slot, pc, hit))
            + EndorseWeight(c, w, n, slot, if pc.Working? then EndorseNext(pc.at) else Moved(pc))
         == EndorseWeight(c, w, n, slot, pc) - Cost(w, hit && (pc == Working(1) || pc == Working(2)))
  {
    if pc.Working? {
      EndorseWorkWeight(c, n, slot, pc.at, hit, w);
    } else {
      EndorseMoveWeight(c, n, slot, pc, w);
    }
  }

  lemma EndorserShares(c: Config, s: State, s': State, n: nat, slot: nat, hit: bool, w: Weight)
    requires Shape(c, s) && Shape(c, s') && EndorserMoved(c, s, s', n, slot, hit)
    requires var pc := s.txs[n].endorse[slot]; if pc.Working? then pc.at < 4 else Moving(pc)
    ensures var pc := s.txs[n].endorse[slot];
      Balance(c, w, s') == Balance(c, w, s) - Cost(w, hit && (pc == Working(1) || pc == Working(2)))
  {
    var pc := s.txs[n].endorse[slot];
    EndorserWeight(c, n, slot, pc, hit, w);
    SlotWeight(c, n, s.txs[n], s'.txs[n], slot, w);
    TxPays(c, s, s', n, EndorserGain(c, n, slot, pc, hit), w, Cost(w, hit && (pc == Working(1) || pc == Working(2))));
  }

  lemma EndorserBalance(c: Config, s: State, n: nat, slot: nat, hit: bool, w: Weight)
    requires Shape(c, s) && EndorserCan(c, s, n, slot) && Shape(c, EndorserStep(c, s, n, slot, hit))
    ensures var pc := s.txs[n].endorse[slot];
      Balance(c, w, EndorserStep(c, s, n, slot, hit)) ==
        Balance(c, w, s) - Cost(w, hit && (pc == Working(1) || pc == Working(2)))
  {
    EndorserChanges(c, s, n, slot, hit);
    EndorserShares(c, s, EndorserStep(c, s, n, slot, hit), n, slot, hit, w);
  }

  lemma EndorserPays(c: Config, s: State, n: nat, slot: nat, hit: bool, w: Weight)
    requires Shape(c, s) && Enabled(c, s, Label.Endorser(n, slot, hit))
    requires Shape(c, Apply(c, s, Label.Endorser(n, slot, hit)))
    ensures Pays(c, s, Label.Endorser(n, slot, hit), w)
  {
    EndorserBalance(c, s, n, slot, hit, w);
  }

  // ---- order goroutines

  function OrderNext(c: Config, at: nat): JobPc {
    if at == 0 || at < c.peers then Working(at + 1) else Gone
  }

  function OrderEvents(at: nat, hit: bool): multiset<Event> {
    if at == 0 then Check(hit) else multiset{}
  }

  lemma OrderWorkWeight(c: Config, w: Weight, at: nat, hit: bool)
    requires at <= c.peers
    ensures Worth(c, w, Only(OrderEvents(at, hit))) + OrderWeight(c, w, OrderNext(c, at))
         == OrderWeight(c, w, Working(at)) - Cost(w, hit && at == 0)
  {
    match w
    case Steps =>
    case Count(e) => if at == 0 { if hit {} else {} } else {}
    case _ =>
  }

  /** What a step of an order goroutine changes. */
  ghost predicate OrdererMoved(c: Config, s: State, s': State, n: nat, hit: bool)
    requires Shape(c, s)
  {
    && OneTx(s, s', n)
    && var t, at := s.txs[n], if s.txs[n].order.Working? then s.txs[n].order.at else 0;
    && t.order.Working? && at <= c.peers
    && (if at == 0 then s'.txs[n] == t.(order := OrderNext(c, at))
        else s'.txs[n] == t.(order := OrderNext(c, at), validate := t.validate[at - 1 := Received]))
    && Stores(c, s, s', Only(OrderEvents(at, hit)))
  }

  lemma OrdererChanges(c: Config, s: State, n: nat, hit: bool)
    requires Shape(c, s) && OrdererCan(c, s, n)
    ensures OrdererMoved(c, s, OrdererStep(c, s, n, hit), n, hit)
  {
    if s.txs[n].order.at == 0 {
    } else {
      assert s.events + multiset{} == s.events;
    }
  }

  /** The arrival in a loop is the sender's step. */
  lemma EndorseArrivalIsFree(c: Config, n: nat, slot: nat, w: Weight)
    requires c.peers >= 1
    ensures EndorseWeight(c, w, n, slot, Received) == EndorseWeight(c, w, n, slot, Unsent)
  {
    match w
    case Count(e) => assert EndorseCount(e, Received) == EndorseCount(e, Unsent);
    case _ =>
  }

  lemma ValidateArrivalIsFree(c: Config, n: nat, p: nat, w: Weight)
    requires c.peers >= 1
    ensures ValidateWeight(c, w, n, p, Received) == ValidateWeight(c, w, n, p, Unsent)
  {
    match w
    case Count(e) => assert ValidateCount(c, n, p, e, Received) == ValidateCount(c, n, p, e, Unsent);
    case _ =>
  }

  lemma OrderArrivalIsFree(c: Config, w: Weight)
    ensures OrderWeight(c, w, Received) == OrderWeight(c, w, Unsent)
  {
    match w
    case Steps =>
    case Count(_) =>
    case _ =>
  }

  lemma OrdererWeight(c: Config, n: nat, t: Tx, t': Tx, w: Weight)
    requires c.peers >= 1 && t.order.Working? && t.order.at <= c.peers == |t.validate|
    requires var at := t.order.at;
      if at == 0 then t' == t.(order := OrderNext(c, at))
      else t.validate[at - 1].Unsent?
           && t' == t.(order := OrderNext(c, at), validate := t.validate[at - 1 := Received])
    ensures TxWeight(c, w, n, t') - TxWeight(c, w, n, t) == OrderWeight(c, w, t'.order) - OrderWeight(c, w, t.order)
  {
    var at := t.order.at;
    if at > 0 {
      ValidateSet(c, w, n, t.validate, at - 1, Received);
      ValidateArrivalIsFree(c, n, at - 1, w);
    }
  }

  lemma OrdererShares(c: Config, s: State, s': State, n: nat, hit: bool, w: Weight)
    requires Shape(c, s) && Shape(c, s') && OrdererMoved(c, s, s', n, hit)
    requires var t := s.txs[n]; t.order.at > 0 ==> t.validate[t.order.at - 1].Unsent?
    ensures Balance(c, w, s') == Balance(c, w, s) - Cost(w, hit && s.txs[n].order.at == 0)
  {
    var t, at := s.txs[n], s.txs[n].order.at;
    OrderWorkWeight(c, w, at, hit);
    OrdererWeight(c, n, t, s'.txs[n], w);
    TxPays(c, s, s', n, Only(OrderEvents(at, hit)), w, Cost(w, hit && at == 0));
  }

  lemma OrdererBalance(c: Config, s: State, n: nat, hit: bool, w: Weight)
    requires Shape(c, s) && OrdererCan(c, s, n) && Shape(c, OrdererStep(c, s, n, hit))
    requires var t := s.txs[n]; t.order.at > 0 ==> t.validate[t.order.at - 1].Unsent?
    ensures Balance(c, w, OrdererStep(c, s, n, hit)) == Balance(c, w, s) - Cost(w, hit && s.txs[n].order.at == 0)
  {
    OrdererChanges(c, s, n, hit);
    OrdererShares(c, s, OrdererStep(c, s, n, hit), n, hit, w);
  }

  /** The goroutine's next message has not been sent yet. */
  lemma NextIsUnsent(c: Config, t: Tx, g: Grant, epoch: nat)
    requires TxInv(c, t, g, epoch) && t.order.Working? && t.order.at > 0
    ensures t.order.at <= c.peers && t.validate[t.order.at - 1].Unsent?
  {
  }

  lemma OrdererReady(c: Config, s: State, n: nat)
    requires Inv(c, s) && OrdererCan(c, s, n)
    ensures var t := s.txs[n]; t.order.at > 0 ==> t.validate[t.order.at - 1].Unsent?
  {
    if s.txs[n].order.at > 0 {
      NextIsUnsent(c, s.txs[n], s.grants[c.users + n], s.epoch);
    }
  }

  lemma OrdererSpends(c: Config, s: State, n: nat, hit: bool, w: Weight)
    requires Shape(c, s) && Enabled(c, s, Label.Orderer(n, hit)) && Shape(c, OrdererStep(c, s, n, hit))
    requires var t := s.txs[n]; t.order.at > 0 ==> t.validate[t.order.at - 1].Unsent?
    ensures Pays(c, s, Label.Orderer(n, hit), w)
  {
    OrdererBalance(c, s, n, hit, w);
  }

  lemma OrdererPays(c: Config, s: State, n: nat, hit: bool, w: Weight)
    requires Inv(c, s) && Enabled(c, s, Label.Orderer(n, hit))
    ensures Pays(c, s, Label.Orderer(n, hit), w)
  {
    KeepsShape(c, s, Label.Orderer(n, hit));
    OrdererReady(c, s, n);
    OrdererSpends(c, s, n, hit, w);
  }

  // ---- validate goroutines

  function ValidateNext(at: nat): JobPc {
    if at < 4 then Working(at + 1) else Replying
  }

  /** How often validation work number `at` records e. */
  function ValidateEmission(c: Config, at: nat, hit: bool, e: Event): nat {
    One(
      || (at == 0 && e == Crypto(VerifyNym))
      || (at == 1 && e == Crypto(VerifySchnorr))
      || (at == 2 && (e == Crypto(Hash) || (!hit && e == Crypto(CredVerify))))
      || (at == 3 && c.audit && e == Crypto(AuditVerify))
      || (at == 4 && c.revoke && e == Crypto(NonRevokeVerify)))
  }

  lemma ValidateEmitted(c: Config, at: nat, hit: bool, e: Event)
    requires at < 5
    ensures ValidateEvents(c, at, hit)[e] == ValidateEmission(c, at, hit, e)
  {
    if at == 0 {} else if at == 1 {} else if at == 2 {} else if at == 3 {} else {}
  }

  lemma ValidateWorkCount(c: Config, n: nat, p: nat, at: nat, hit: bool, e: Event)
    requires c.peers >= 1 && at < 5
    ensures ValidateCount(c, n, p, e, Working(at))
         == ValidateCount(c, n, p, e, ValidateNext(at))
            + ValidateEmission(c, at, hit, e) + One(e == Crypto(CredVerify) && hit && at == 2)
  {
  }

  lemma ValidateWorkWeight(c: Config, n: nat, p: nat, at: nat, hit: bool, w: Weight)
    requires c.peers >= 1 && at < 5
    ensures Worth(c, w, Only(ValidateEvents(c, at, hit))) + ValidateWeight(c, w, n, p, ValidateNext(at))
         == ValidateWeight(c, w, n, p, Working(at)) - Cost(w, hit && at == 2)
  {
    match w
    case Count(e) =>
      ValidateEmitted(c, at, hit, e);
      ValidateWorkCount(c, n, p, at, hit, e);
    case _ =>
  }

  function ValidateMoveGain(c: Config, n: nat, p: nat, pc: JobPc): Gain
    requires c.peers >= 1
  {
    Gain(if pc.Received? && OrdererOf(c, n) != p then Sent(Transaction) else multiset{}, p, 0, Returned(pc), 0)
  }

  lemma ValidateMoveCount(c: Config, n: nat, p: nat, pc: JobPc, e: Event)
    requires p < c.peers && Moving(pc)
    ensures ValidateCount(c, n, p, e, Moved(pc)) + One(pc.Received? && OrdererOf(c, n) != p && e == Transfer(Transaction))
         == ValidateCount(c, n, p, e, pc)
  {
  }

  lemma ValidateMoveWeight(c: Config, n: nat, p: nat, pc: JobPc, w: Weight)
    requires p < c.peers && Moving(pc)
    ensures Worth(c, w, ValidateMoveGain(c, n, p, pc)) + ValidateWeight(c, w, n, p, Moved(pc))
         == ValidateWeight(c, w, n, p, pc) - Cost(w, false)
  {
    match w
    case Count(e) =>
      ValidateMoveCount(c, n, p, pc, e);
      if pc.Received? && OrdererOf(c, n) != p {} else {}
    case ValidatePermit(q) => if p == q {} else {}
    case _ =>
  }

  function ValidatorGain(c: Config, n: nat, p: nat, pc: JobPc, hit: bool): Gain
    requires c.peers >= 1
  {
    if pc.Working? then Only(ValidateEvents(c, pc.at, hit)) else ValidateMoveGain(c, n, p, pc)
  }

  lemma ValidatorJobWeight(c: Config, n: nat, p: nat, pc: JobPc, hit: bool, w: Weight)
    requires p < c.peers && (if pc.Working? then pc.at < 5 else Moving(pc))
    ensures Worth(c, w, ValidatorGain(c, n, p, pc, hit))
            + ValidateWeight(c, w, n, p, if pc.Working? then ValidateNext(pc.at) else Moved(pc))
         == ValidateWeight(c, w, n, p, pc) - Cost(w, hit && pc == Working(2))
  {
    if pc.Working? {
      ValidateWorkWeight(c, n, p, pc.at, hit, w);
    } else {
      ValidateMoveWeight(c, n, p, pc, w);
    }
  }

  /** What a step of a validate goroutine changes, unless it panics. */
  ghost predicate ValidatorMoved(c: Config, s: State, s': State, n: nat, p: nat, hit: bool)
    requires Shape(c, s)
  {
    && OneTx(s, s', n) && OneValidator(s.txs[n], s'.txs[n], p)
    && var pc := s.txs[n].validate[p];
    && s'.txs[n].validate[p] == (if pc.Working? then ValidateNext(pc.at) else Moved(pc))
    && Stores(c, s, s', ValidatorGain(c, n, p, pc, hit))
  }

  lemma ValidatorChanges(c: Config, s: State, n: nat, p: nat, hit: bool)
    requires Shape(c, s) && ValidatorCan(c, s, n, p) && ValidatorStep(c, s, n, p, hit).crash == NoCrash
    ensures ValidatorMoved(c, s, ValidatorStep(c, s, n, p, hit), n, p, hit)
  {
    match s.txs[n].validate[p]
    case Working(at) =>
    case Replying =>
    case Releasing =>
  }

  lemma ValidatorShares(c: Config, s: State, s': State, n: nat, p: nat, hit: bool, w: Weight)
    requires Shape(c, s) && Shape(c, s') && ValidatorMoved(c, s, s', n, p, hit)
    requires var pc := s.txs[n].validate[p]; if pc.Working? then pc.at < 5 else Moving(pc)
    ensures Balance(c, w, s') == Balance(c, w, s) - Cost(w, hit && s.txs[n].validate[p] == Working(2))
  {
    var pc := s.txs[n].validate[p];
    ValidatorJobWeight(c, n, p, pc, hit, w);
    ValidatorWeight(c, n, s.txs[n], s'.txs[n], p, w);
    TxPays(c, s, s', n, ValidatorGain(c, n, p, pc, hit), w, Cost(w, hit && pc == Working(2)));
  }

  lemma ValidatorBalance(c: Config, s: State, n: nat, p: nat, hit: bool, w: Weight)
    requires Shape(c, s) && ValidatorCan(c, s, n, p)
    requires var s' := ValidatorStep(c, s, n, p, hit); Shape(c, s') && s'.crash == NoCrash
    ensures Balance(c, w, ValidatorStep(c, s, n, p, hit)) ==
              Balance(c, w, s) - Cost(w, hit && s.txs[n].validate[p] == Working(2))
  {
    ValidatorChanges(c, s, n, p, hit);
    ValidatorShares(c, s, ValidatorStep(c, s, n, p, hit), n, p, hit, w);
  }

  lemma ValidatorPays(c: Config, s: State, n: nat, p: nat, hit: bool, w: Weight)
    requires Shape(c, s) && Enabled(c, s, Label.Validator(n, p, hit))
    requires var s' := Apply(c, s, Label.Validator(n, p, hit)); Shape(c, s') && s'.crash == NoCrash
    ensures Pays(c, s, Label.Validator(n, p, hit), w)
  {
    ValidatorBalance(c, s, n, p, hit, w);
  }

  // ---- peer loops

  ghost predicate LoopEndorses(c: Config, s: State, s': State, n: nat, slot: nat)
    requires Shape(c, s)
  {
    && OneTx(s, s', n) && OneSlot(s.txs[n], s'.txs[n], slot)
    && var pc := s.txs[n].endorse[slot];
    && Moving(pc) && s'.txs[n].endorse[slot] == Moved(pc) && Stores(c, s, s', EndorseMoveGain(c, n, slot, pc))
  }

  lemma LoopEndorseChanges(c: Config, s: State, p: nat)
    requires Shape(c, s) && LoopCan(c, s, p) && s.loops[p].job.EndorseJob? && PeerOf(c, s.loops[p].job) == p
    ensures LoopEndorses(c, s, LoopStep(c, s, p), s.loops[p].job.tx, s.loops[p].job.slot)
  {
    if s.txs[s.loops[p].job.tx].endorse[s.loops[p].job.slot].Received? {} else {}
  }

  lemma LoopEndorseShares(c: Config, s: State, s': State, n: nat, slot: nat, w: Weight)
    requires Shape(c, s) && Shape(c, s') && LoopEndorses(c, s, s', n, slot)
    ensures Balance(c, w, s') == Balance(c, w, s) - Cost(w, false)
  {
    var pc := s.txs[n].endorse[slot];
    EndorseMoveWeight(c, n, slot, pc, w);
    SlotWeight(c, n, s.txs[n], s'.txs[n], slot, w);
    TxPays(c, s, s', n, EndorseMoveGain(c, n, slot, pc), w, Cost(w, false));
  }

  lemma LoopEndorsePays(c: Config, s: State, p: nat, w: Weight)
    requires Shape(c, s) && LoopCan(c, s, p) && s.loops[p].job.EndorseJob? && PeerOf(c, s.loops[p].job) == p
    requires Shape(c, LoopStep(c, s, p))
    ensures Balance(c, w, LoopStep(c, s, p)) == Balance(c, w, s) - Cost(w, false)
  {
    LoopEndorseChanges(c, s, p);
    LoopEndorseShares(c, s, LoopStep(c, s, p), s.loops[p].job.tx, s.loops[p].job.slot, w);
  }

  lemma LoopOrderWeight(c: Config, n: nat, t: Tx, w: Weight)
    requires c.peers >= 1 && t.order.Received?
    ensures Worth(c, w, Only(Sent(Transaction))) + TxWeight(c, w, n, t.(order := Working(0)))
         == TxWeight(c, w, n, t) - Cost(w, false)
  {
    match w
    case Steps =>
    case Count(_) =>
    case _ =>
  }

  lemma LoopOrderChanges(c: Config, s: State, p: nat)
    requires Shape(c, s) && LoopCan(c, s, p) && s.loops[p].job.OrderJob?
    ensures var s', n := LoopStep(c, s, p), s.loops[p].job.tx;
      && OneTx(s, s', n) && s.txs[n].order.Received? && s'.txs[n] == s.txs[n].(order := Working(0))
      && Stores(c, s, s', Only(Sent(Transaction)))
  {
  }

  lemma LoopOrderShares(c: Config, s: State, s': State, n: nat, w: Weight)
    requires Shape(c, s) && Shape(c, s') && OneTx(s, s', n) && Stores(c, s, s', Only(Sent(Transaction)))
    requires s.txs[n].order.Received? && s'.txs[n] == s.txs[n].(order := Working(0))
    ensures Balance(c, w, s') == Balance(c, w, s) - Cost(w, false)
  {
    LoopOrderWeight(c, n, s.txs[n], w);
    TxPays(c, s, s', n, Only(Sent(Transaction)), w, Cost(w, false));
  }

  lemma LoopOrderPays(c: Config, s: State, p: nat, w: Weight)
    requires Shape(c, s) && LoopCan(c, s, p) && s.loops[p].job.OrderJob?
    requires Shape(c, LoopStep(c, s, p))
    ensures Balance(c, w, LoopStep(c, s, p)) == Balance(c, w, s) - Cost(w, false)
  {
    LoopOrderChanges(c, s, p);
    LoopOrderShares(c, s, LoopStep(c, s, p), s.loops[p].job.tx, w);
  }

  ghost predicate LoopValidates(c: Config, s: State, s': State, n: nat, p: nat)
    requires Shape(c, s)
  {
    && OneTx(s, s', n) && OneValidator(s.txs[n], s'.txs[n], p)
    && var pc := s.txs[n].validate[p];
    && Moving(pc) && s'.txs[n].validate[p] == Moved(pc) && Stores(c, s, s', ValidateMoveGain(c, n, p, pc))
  }

  lemma LoopValidateChanges(c: Config, s: State, p: nat)
    requires Shape(c, s) && LoopCan(c, s, p) && s.loops[p].job.ValidateJob? && PeerOf(c, s.loops[p].job) == p
    ensures LoopValidates(c, s, LoopStep(c, s, p), s.loops[p].job.tx, p)
  {
    if s.txs[s.loops[p].job.tx].validate[p].Received? {} else {}
  }

  lemma LoopValidateShares(c: Config, s: State, s': State, n: nat, p: nat, w: Weight)
    requires Shape(c, s) && Shape(c, s') && LoopValidates(c, s, s', n, p)
    ensures Balance(c, w, s') == Balance(c, w, s) - Cost(w, false)
  {
    var pc := s.txs[n].validate[p];
    ValidateMoveWeight(c, n, p, pc, w);
    ValidatorWeight(c, n, s.txs[n], s'.txs[n], p, w);
    TxPays(c, s, s', n, ValidateMoveGain(c, n, p, pc), w, Cost(w, false));
  }

  lemma LoopValidatePays(c: Config, s: State, p: nat, w: Weight)
    requires Shape(c, s) && LoopCan(c, s, p) && s.loops[p].job.ValidateJob? && PeerOf(c, s.loops[p].job) == p
    requires Shape(c, LoopStep(c, s, p))
    ensures Balance(c, w, LoopStep(c, s, p)) == Balance(c, w, s) - Cost(w, false)
  {
    LoopValidateChanges(c, s, p);
    LoopValidateShares(c, s, LoopStep(c, s, p), s.loops[p].job.tx, p, w);
  }

  lemma LoopJobPays(c: Config, s: State, p: nat, w: Weight)
    requires Shape(c, s) && LoopCan(c, s, p) && PeerOf(c, s.loops[p].job) == p && Shape(c, LoopStep(c, s, p))
    ensures Balance(c, w, LoopStep(c, s, p)) == Balance(c, w, s) - Cost(w, false)
  {
    match s.loops[p].job
    case EndorseJob(_, _) => LoopEndorsePays(c, s, p, w);
    case OrderJob(_) => LoopOrderPays(c, s, p, w);
    case ValidateJob(_, _) => LoopValidatePays(c, s, p, w);
  }

  lemma LoopPays(c: Config, s: State, p: nat, w: Weight)
    requires Inv(c, s) && Enabled(c, s, Loop(p))
    ensures Pays(c, s, Loop(p), w)
  {
    KeepsShape(c, s, Loop(p));
    assert LoopInv(c, s, p);
    LoopJobPays(c, s, p, w);
  }

  // ---- submitTransaction

  function UserEvents(c: Config, u: UserPc): multiset<Event> {
    match u
    case Waiting => Ev(Hash) + Ev(Hash) + Ev(CredProve) + Ev(SignNym)
    case Collecting => Ev(VerifySchnorr)
    case Building => BuildEvents(c)
    case _ => multiset{}
  }

  /** How often the step out of u records e. */
  function UserEmission(c: Config, u: UserPc, e: Event): nat {
    if u.Waiting? then
      2 * One(e == Crypto(Hash)) + One(e == Crypto(CredProve) || e == Crypto(SignNym))
    else if u.Collecting? then
      One(e == Crypto(VerifySchnorr))
    else
      One(u.Building? && (
        || e == Crypto(SignNym) || e == Crypto(Hash)
        || (c.revoke && e == Crypto(NonRevokeProve))
        || (c.audit && (e == Crypto(AuditEncrypt) || e == Crypto(AuditProve)))))
  }

  lemma StartEmitted(c: Config, e: Event)
    ensures UserEvents(c, Waiting)[e] == UserEmission(c, Waiting, e)
  {
    var hashes := Ev(Hash) + Ev(Hash);
    var others := Ev(CredProve) + Ev(SignNym);
    assert hashes[e] == 2 * One(e == Crypto(Hash));
    assert others[e] == One(e == Crypto(CredProve) || e == Crypto(SignNym));
    assert UserEvents(c, Waiting) == hashes + others;
  }

  lemma UserEmitted(c: Config, u: UserPc, e: Event)
    ensures UserEvents(c, u)[e] == UserEmission(c, u, e)
  {
    match u
    case Waiting => StartEmitted(c, e);
    case Collecting =>
    case Building => BuildEmitted(c, e);
    case _ =>
  }

  lemma BuildEmitted(c: Config, e: Event)
    ensures BuildEvents(c)[e] == UserEmission(c, Building, e)
  {
    var always := Ev(SignNym) + Ev(Hash);
    var revoke := if c.revoke then Ev(NonRevokeProve) else multiset{};
    var audit := if c.audit then Ev(AuditEncrypt) + Ev(AuditProve) else multiset{};
    assert always[e] == One(e == Crypto(SignNym) || e == Crypto(Hash));
    assert revoke[e] == One(c.revoke && e == Crypto(NonRevokeProve));
    assert audit[e] == One(c.audit && (e == Crypto(AuditEncrypt) || e == Crypto(AuditProve)));
    assert BuildEvents(c)[e] == always[e] + revoke[e] + audit[e];
  }

  function UserNext(c: Config, u: UserPc, taken: nat): UserPc {
    match u
    case Waiting => Sending(0)
    case Sending(slot) => if slot + 1 < c.endorsements then Sending(slot + 1) else Collecting
    case Collecting =>
      if taken + 1 < c.endorsements then Collecting else if c.revoke then Reading else Building
    case Reading => Requesting
    case Requesting => Awaiting
    case Awaiting => Building
    case Building => Ordering
    case Ordering => Committing(0)
    case Committing(got) => if got < c.peers then Committing(got + 1) else Done
    case Done => Done
  }

  lemma UserNextCount(c: Config, u: UserPc, taken: nat, e: Event)
    requires !u.Done?
    ensures UserCount(c, UserNext(c, u, taken), TakenAfter(u, taken), e)
         == UserCount(c, u, taken, e) - UserEmission(c, u, e)
  {
    NextIsBuilt(c, u, taken);
    if e.Crypto? {
      match e.operation { case Hash => case CredProve => case SignNym => case VerifySchnorr => case _ => }
    }
  }

  /** What the counts depend on. */
  lemma NextIsBuilt(c: Config, u: UserPc, taken: nat)
    requires !u.Done?
    ensures var u' := UserNext(c, u, taken);
      !u'.Waiting? && (BuildAhead(u') <==> BuildAhead(u) && !u.Building?)
  {
    match u { case _ => }
  }

  function TakenAfter(u: UserPc, taken: nat): nat {
    if u.Collecting? then taken + 1 else taken
  }

  /** Where a step of submitTransaction starts from. */
  predicate UserReady(c: Config, u: UserPc, taken: nat) {
    && !u.Done?
    && (u.Sending? ==> u.slot < c.endorsements && taken == 0)
    && (u.Waiting? ==> taken == 0)
    && (u.Collecting? ==> taken < c.endorsements)
    && (u.Committing? ==> u.got <= c.peers)
    && (u.Reading? || u.Requesting? || u.Awaiting? ==> c.revoke)
  }

  lemma UserNextSteps(c: Config, u: UserPc, taken: nat)
    requires c.endorsements >= 1 && UserReady(c, u, taken)
    ensures UserSteps(c, UserNext(c, u, taken), TakenAfter(u, taken)) == UserSteps(c, u, taken) - 1
  {
    match u { case _ => }
  }

  lemma UserNextWeight(c: Config, u: UserPc, taken: nat, w: Weight)
    requires c.endorsements >= 1 && UserReady(c, u, taken)
    ensures Worth(c, w, Only(UserEvents(c, u))) + UserWeight(c, w, UserNext(c, u, taken), TakenAfter(u, taken))
         == UserWeight(c, w, u, taken) - Cost(w, false)
  {
    match w
    case Steps => UserNextSteps(c, u, taken);
    case Count(e) =>
      UserNextCount(c, u, taken, e);
      UserEmitted(c, u, e);
    case _ =>
  }

  /** What a step of submitTransaction changes in its own transaction. */
  ghost predicate UserMoved(c: Config, t: Tx, t': Tx) {
    && t'.user == UserNext(c, t.user, t.taken)
    && t'.taken == TakenAfter(t.user, t.taken)
    && t'.validate == t.validate
    && (if t.user.Sending? then
          t.user.slot < |t.endorse| && t.endorse[t.user.slot].Unsent? && t'.endorse == t.endorse[t.user.slot := Received]
        else t'.endorse == t.endorse)
    && (if t.user.Ordering? then t.order.Unsent? && t'.order == Received else t'.order == t.order)
  }

  /** A transaction that is read refreshes, because the copied epoch is older than every epoch of the network. */
  lemma UserFacts(c: Config, t: Tx, g: Grant, epoch: nat)
    requires TxInv(c, t, g, epoch) && epoch >= 1 && !t.user.Done?
    ensures UserReady(c, t.user, t.taken)
    ensures t.user.Reading? ==> t.epoch != epoch
    ensures t.user.Sending? ==> t.endorse[t.user.slot].Unsent?
    ensures t.user.Ordering? ==> t.order.Unsent?
  {
  }

  lemma UserMoves(c: Config, s: State, n: nat)
    requires Shape(c, s) && UserCan(c, s, n)
    requires var t := s.txs[n];
      && UserReady(c, t.user, t.taken) && (t.user.Reading? ==> t.epoch != s.epoch)
      && (t.user.Sending? ==> t.endorse[t.user.slot].Unsent?) && (t.user.Ordering? ==> t.order.Unsent?)
    ensures UserMoved(c, s.txs[n], UserStep(c, s, n).txs[n])
  {
  }

  /** The jobs a step of submitTransaction creates owe what they owed before they existed. */
  lemma UserTxWeight(c: Config, n: nat, t: Tx, t': Tx, w: Weight)
    requires c.peers >= 1 && UserMoved(c, t, t')
    ensures TxWeight(c, w, n, t') - TxWeight(c, w, n, t) ==
              UserWeight(c, w, t'.user, t'.taken) - UserWeight(c, w, t.user, t.taken)
  {
    if t.user.Sending? {
      EndorseSet(c, w, n, t.endorse, t.user.slot, Received);
      EndorseArrivalIsFree(c, n, t.user.slot, w);
    } else {
      OrderArrivalIsFree(c, w);
    }
  }

  lemma UserStores(c: Config, s: State, n: nat)
    requires Shape(c, s) && UserCan(c, s, n)
    ensures Stores(c, s, UserStep(c, s, n), Only(UserEvents(c, s.txs[n].user)))
  {
    var s' := UserStep(c, s, n);
    assert s'.endorsePermits == s.endorsePermits && s'.validatePermits == s.validatePermits
      && s'.grantPermits == s.grantPermits;
    assert s'.events == s.events + UserEvents(c, s.txs[n].user) by {
      UserRecords(c, s, n);
    }
  }

  lemma UserRecords(c: Config, s: State, n: nat)
    requires Shape(c, s) && UserCan(c, s, n)
    ensures UserStep(c, s, n).events == s.events + UserEvents(c, s.txs[n].user)
  {
    var u := s.txs[n].user;
    if !u.Waiting? && !u.Collecting? && !u.Building? {
      assert UserEvents(c, u) == multiset{};
      assert UserStep(c, s, n).events == s.events;
    }
  }

  lemma UserFrame(c: Config, s: State, n: nat)
    requires Shape(c, s) && UserCan(c, s, n)
    ensures var s', r := UserStep(c, s, n), c.users + n;
      && s'.txs == s.txs[n := s'.txs[n]] && s'.main == s.main
      && s'.grants == if s.txs[n].user.Requesting? then s.grants[r := s.grants[r].(pc := Received)]
                      else if s.txs[n].user.Awaiting? then s.grants[r := s.grants[r].(pc := Releasing)]
                      else s.grants
  {
  }

  /** The arrival of a request is its sender's step. */
  lemma RequestIsFree(c: Config, w: Weight)
    ensures GrantWeight(c, w, Received) == GrantWeight(c, w, Unsent)
  {
    match w
    case Steps =>
    case Count(_) =>
    case _ =>
  }

  /** Handing a signed handle over is the receiver's step. */
  lemma DepartureIsFree(c: Config, w: Weight)
    ensures GrantWeight(c, w, Releasing) == GrantWeight(c, w, Replying)
  {
    match w
    case Steps =>
    case Count(_) =>
    case _ =>
  }

  lemma RequestIsNew(c: Config, t: Tx, g: Grant, epoch: nat)
    requires TxInv(c, t, g, epoch) && t.user.Requesting?
    ensures g.pc.Unsent?
  {
  }

  lemma UserGrantPays(c: Config, s: State, n: nat, w: Weight)
    requires Shape(c, s) && UserCan(c, s, n)
    requires s.txs[n].user.Requesting? ==> s.grants[c.users + n].pc.Unsent?
    ensures GrantTotal(c, w, UserStep(c, s, n).grants) == GrantTotal(c, w, s.grants)
  {
    var r := c.users + n;
    UserFrame(c, s, n);
    if s.txs[n].user.Requesting? {
      RequestIsFree(c, w);
      GrantSet(c, w, s.grants, r, s.grants[r].(pc := Received));
    } else if s.txs[n].user.Awaiting? {
      DepartureIsFree(c, w);
      GrantSet(c, w, s.grants, r, s.grants[r].(pc := Releasing));
    }
  }

  /** A step of a user changes the balance by what it stores and by what its transaction's weight changes. */
  lemma UserShares(c: Config, s: State, s': State, n: nat, gain: Gain, w: Weight, cost: int)
    requires Shape(c, s) && Shape(c, s') && n < |s.txs| && s'.txs == s.txs[n := s'.txs[n]] && s'.main == s.main
    requires Stores(c, s, s', gain) && GrantTotal(c, w, s'.grants) == GrantTotal(c, w, s.grants)
    requires Worth(c, w, gain) + TxWeight(c, w, n, s'.txs[n]) == TxWeight(c, w, n, s.txs[n]) - cost
    ensures Balance(c, w, s') == Balance(c, w, s) - cost
  {
    StoredBy(c, s, s', gain, w);
    TxSet(c, w, s.txs, n, s'.txs[n]);
  }

  lemma UserBalance(c: Config, s: State, n: nat, w: Weight)
    requires Shape(c, s) && Enabled(c, s, User(n)) && Shape(c, UserStep(c, s, n))
    requires UserReady(c, s.txs[n].user, s.txs[n].taken) && UserMoved(c, s.txs[n], UserStep(c, s, n).txs[n])
    requires GrantTotal(c, w, UserStep(c, s, n).grants) == GrantTotal(c, w, s.grants)
    ensures Pays(c, s, User(n), w)
  {
    var s', t := UserStep(c, s, n), s.txs[n];
    UserStores(c, s, n);
    UserFrame(c, s, n);
    UserNextWeight(c, t.user, t.taken, w);
    UserTxWeight(c, n, t, s'.txs[n], w);
    UserShares(c, s, s', n, Only(UserEvents(c, t.user)), w, Cost(w, false));
  }

  lemma UserCanMove(c: Config, s: State, n: nat)
    requires Inv(c, s) && s.crash == NoCrash && UserCan(c, s, n)
    ensures UserReady(c, s.txs[n].user, s.txs[n].taken) && UserMoved(c, s.txs[n], UserStep(c, s, n).txs[n])
    ensures s.txs[n].user.Requesting? ==> s.grants[c.users + n].pc.Unsent?
  {
    var t, g := s.txs[n], s.grants[c.users + n];
    UserFacts(c, t, g, s.epoch);
    if t.user.Requesting? {
      RequestIsNew(c, t, g, s.epoch);
    }
    UserMoves(c, s, n);
  }

  lemma UserPays(c: Config, s: State, n: nat, w: Weight)
    requires Inv(c, s) && Enabled(c, s, User(n))
    ensures Pays(c, s, User(n), w)
  {
    KeepsShape(c, s, User(n));
    UserCanMove(c, s, n);
    UserGrantPays(c, s, n, w);
    UserBalance(c, s, n, w);
  }

  // ---- authority and grants

  function GrantNext(pc: JobPc): JobPc {
    if pc.Working? then Replying else Moved(pc)
  }

  function GrantGain(pc: JobPc): Gain {
    Gain(if pc.Received? then Sent(NonRevocationRequest)
         else if pc.Working? then Ev(NonRevokeGrant) + Sent(NonRevocationHandle)
         else multiset{},
         0, 0, 0, Returned(pc))
  }

  lemma GrantMoveWeight(c: Config, pc: JobPc, w: Weight)
    requires c.revoke && (InLoop(pc) || pc == Working(0) || pc.Releasing?)
    ensures Worth(c, w, GrantGain(pc)) + GrantWeight(c, w, GrantNext(pc)) == GrantWeight(c, w, pc) - Cost(w, false)
  {
    match w
    case Count(e) => if pc.Received? {} else if pc.Working? {} else {}
    case _ =>
  }

  ghost predicate OneGrant(s: State, s': State, r: nat) {
    r < |s.grants| == |s'.grants| && s'.grants == s.grants[r := s'.grants[r]] && s'.txs == s.txs && s'.main == s.main
  }

  /** A step of a grant changes the balance by what it stores and by what its weight changes. */
  lemma GrantPays(c: Config, s: State, s': State, r: nat, gain: Gain, w: Weight, cost: int)
    requires Shape(c, s) && Shape(c, s') && OneGrant(s, s', r) && Stores(c, s, s', gain)
    requires Worth(c, w, gain) + GrantWeight(c, w, s'.grants[r].pc) == GrantWeight(c, w, s.grants[r].pc) - cost
    ensures Balance(c, w, s') == Balance(c, w, s) - cost
  {
    StoredBy(c, s, s', gain, w);
    GrantSet(c, w, s.grants, r, s'.grants[r]);
  }

  lemma AuthorityChanges(c: Config, s: State)
    requires Shape(c, s) && AuthorityCan(c, s)
    ensures var s', r := AuthorityStep(c, s), s.authority.job;
      var pc := s.grants[r].pc;
      && InLoop(pc) && OneGrant(s, s', r) && s'.grants[r].pc == GrantNext(pc) && Stores(c, s, s', GrantGain(pc))
  {
  }

  lemma AuthorityBalance(c: Config, s: State, w: Weight)
    requires Shape(c, s) && Enabled(c, s, Label.Authority) && Shape(c, AuthorityStep(c, s)) && c.revoke
    ensures Pays(c, s, Label.Authority, w)
  {
    var r := s.authority.job;
    AuthorityChanges(c, s);
    GrantMoveWeight(c, s.grants[r].pc, w);
    GrantPays(c, s, AuthorityStep(c, s), r, GrantGain(s.grants[r].pc), w, Cost(w, false));
  }

  lemma AuthorityPays(c: Config, s: State, w: Weight)
    requires Inv(c, s) && Enabled(c, s, Label.Authority)
    ensures Pays(c, s, Label.Authority, w)
  {
    KeepsShape(c, s, Label.Authority);
    AuthorityBalance(c, s, w);
  }

  lemma GranterChanges(c: Config, s: State, r: nat)
    requires Shape(c, s) && GranterCan(c, s, r)
    ensures var s', pc := GranterStep(c, s, r), s.grants[r].pc;
      && OneGrant(s, s', r) && s'.grants[r].pc == GrantNext(pc) && Stores(c, s, s', GrantGain(pc))
  {
  }

  lemma GranterBalance(c: Config, s: State, r: nat, w: Weight)
    requires Shape(c, s) && Enabled(c, s, Granter(r)) && Shape(c, GranterStep(c, s, r)) && c.revoke
    ensures Pays(c, s, Granter(r), w)
  {
    GranterChanges(c, s, r);
    GrantMoveWeight(c, s.grants[r].pc, w);
    GrantPays(c, s, GranterStep(c, s, r), r, GrantGain(s.grants[r].pc), w, Cost(w, false));
  }

  lemma GranterPays(c: Config, s: State, r: nat, w: Weight)
    requires Inv(c, s) && Enabled(c, s, Granter(r))
    ensures Pays(c, s, Granter(r), w)
  {
    KeepsShape(c, s, Granter(r));
    GranterBalance(c, s, r, w);
  }

  // ---- the main goroutine

  /** A step of the main goroutine changes the balance by what it stores and by its own and the grants' weight. */
  lemma MainShares(c: Config, s: State, s': State, gain: Gain, w: Weight, cost: int)
    requires Shape(c, s) && Shape(c, s') && s'.txs == s.txs && Stores(c, s, s', gain)
    requires GrantTotal(c, w, s'.grants) == GrantTotal(c, w, s.grants)
    requires Worth(c, w, gain) + MainWeight(c, w, s'.main, |s.txs|) == MainWeight(c, w, s.main, |s.txs|) - cost
    ensures Balance(c, w, s') == Balance(c, w, s) - cost
  {
    StoredBy(c, s, s', gain, w);
  }

  lemma LaunchWeight(c: Config, main: MainPc, main': MainPc, w: Weight, total: nat)
    requires !Joined(main) && !Joined(main') && Launched(c, main) < c.users
    requires if main.AwaitingHandle? then c.revoke && main' == Launching(main.next + 1)
             else main' == if c.revoke then AwaitingHandle(main.next) else Launching(main.next + 1)
    ensures MainWeight(c, w, main', total) == MainWeight(c, w, main, total) - Cost(w, false)
  {
    match w
    case Steps => if main.AwaitingHandle? {} else if c.revoke {} else {}
    case Count(_) =>
    case _ =>
  }

  lemma LaunchGrants(c: Config, s: State, w: Weight)
    requires Shape(c, s) && MainCan(c, s) && !Joined(s.main) && Launched(c, s.main) < c.users
    requires if s.main.AwaitingHandle? then c.revoke else c.revoke ==> s.grants[s.main.next].pc.Unsent?
    ensures GrantTotal(c, w, MainStep(c, s).grants) == GrantTotal(c, w, s.grants)
  {
    var u := s.main.next;
    if c.revoke {
      RequestIsFree(c, w);
      DepartureIsFree(c, w);
      GrantSet(c, w, s.grants, u, MainStep(c, s).grants[u]);
    }
  }

  lemma MainLaunches(c: Config, s: State, w: Weight)
    requires Shape(c, s) && Enabled(c, s, Main) && Shape(c, MainStep(c, s))
    requires !Joined(s.main) && Launched(c, s.main) < c.users
    requires if s.main.AwaitingHandle? then c.revoke else c.revoke ==> s.grants[s.main.next].pc.Unsent?
    ensures Pays(c, s, Main, w)
  {
    LaunchWeight(c, s.main, MainStep(c, s).main, w, |s.txs|);
    LaunchGrants(c, s, w);
    MainShares(c, s, MainStep(c, s), Only(multiset{}), w, Cost(w, false));
  }

  function FinishEvents(s: State): multiset<Event> {
    if s.main.Auditing? && s.main.next < |s.ledger| then Ev(AuditDecrypt) else multiset{}
  }

  lemma FinishWeight(c: Config, s: State, w: Weight)
    requires Shape(c, s) && MainCan(c, s)
    requires Joined(s.main) || s.main == Launching(c.users)
    requires s.main.Auditing? ==> c.audit && |s.ledger| == |s.txs| && s.main.next <= |s.txs|
    requires s.main.Stopping? ==> s.main.next <= c.peers
    ensures Worth(c, w, Only(FinishEvents(s))) + MainWeight(c, w, MainStep(c, s).main, |s.txs|)
         == MainWeight(c, w, s.main, |s.txs|) - Cost(w, false)
  {
    match w
    case Count(e) => match s.main { case Auditing(i) => if i < |s.ledger| {} else {} case _ => }
    case Steps => match s.main { case Auditing(i) => if i < |s.ledger| {} else {} case _ => }
    case _ =>
  }

  lemma FinishChanges(c: Config, s: State)
    requires Shape(c, s) && MainCan(c, s) && (Joined(s.main) || s.main == Launching(c.users))
    ensures var s' := MainStep(c, s);
      s'.txs == s.txs && s'.grants == s.grants && Stores(c, s, s', Only(FinishEvents(s)))
  {
  }

  lemma MainFinishes(c: Config, s: State, w: Weight)
    requires Shape(c, s) && Enabled(c, s, Main) && Shape(c, MainStep(c, s))
    requires Joined(s.main) || s.main == Launching(c.users)
    requires s.main.Auditing? ==> c.audit && |s.ledger| == |s.txs| && s.main.next <= |s.txs|
    requires s.main.Stopping? ==> s.main.next <= c.peers
    ensures Pays(c, s, Main, w)
  {
    FinishChanges(c, s);
    FinishWeight(c, s, w);
    MainShares(c, s, MainStep(c, s), Only(FinishEvents(s)), w, Cost(w, false));
  }

  lemma MainPays(c: Config, s: State, w: Weight)
    requires Inv(c, s) && Enabled(c, s, Main)
    ensures Pays(c, s, Main, w)
  {
    KeepsShape(c, s, Main);
    if Joined(s.main) || s.main == Launching(c.users) {
      LogBound(LedgerTxs(s.ledger), |s.txs|);
      MainFinishes(c, s, w);
    } else {
      MainLaunches(c, s, w);
    }
  }

  lemma TickPays(c: Config, s: State, w: Weight)
    requires Shape(c, s) && Enabled(c, s, Tick)
    ensures Pays(c, s, Tick, w)
  {
  }

  /** The same law with the panic as the only exception. */
  lemma GoroutinePays(c: Config, s: State, l: Label, w: Weight)
    requires Inv(c, s) && Enabled(c, s, l) && (l.Endorser? || l.Orderer? || l.Validator? || l.Granter?)
    requires l.Validator? ==> ValidatorStep(c, s, l.tx, l.peer, l.hit).crash == NoCrash
    ensures Pays(c, s, l, w)
  {
    KeepsShape(c, s, l);
    match l
    case Endorser(n, slot, hit) => EndorserPays(c, s, n, slot, hit, w);
    case Orderer(n, hit) => OrdererPays(c, s, n, hit, w);
    case Validator(n, p, hit) => ValidatorPays(c, s, n, p, hit, w);
    case Granter(r) => GranterPays(c, s, r, w);
  }

  lemma ProcessPays(c: Config, s: State, l: Label, w: Weight)
    requires Inv(c, s) && Enabled(c, s, l) && (l.Main? || l.User? || l.Loop? || l.Authority? || l.Tick?)
    ensures Pays(c, s, l, w)
  {
    KeepsShape(c, s, l);
    match l
    case Main => MainPays(c, s, w);
    case User(n) => UserPays(c, s, n, w);
    case Loop(p) => LoopPays(c, s, p, w);
    case Authority => AuthorityPays(c, s, w);
    case Tick => TickPays(c, s, w);
  }

  lemma LabelPays(c: Config, s: State, l: Label, w: Weight)
    requires Inv(c, s) && Enabled(c, s, l)
    requires l.Validator? ==> ValidatorStep(c, s, l.tx, l.peer, l.hit).crash == NoCrash
    ensures Pays(c, s, l, w)
  {
    KeepsShape(c, s, l);
    if l.Endorser? || l.Orderer? || l.Validator? || l.Granter? {
      GoroutinePays(c, s, l, w);
    } else {
      ProcessPays(c, s, l, w);
    }
  }

  /** The conservation law.  A panic is the only step that does not obey it. */
  lemma StepBalance(c: Config, s: State, l: Label, w: Weight)
    requires Inv(c, s) && Enabled(c, s, l) && Apply(c, s, l).crash == NoCrash
    ensures Shape(c, Apply(c, s, l))
    ensures Balance(c, w, Apply(c, s, l)) == Balance(c, w, s) - Spent(c, s, l, w)
  {
    LabelPays(c, s, l, w);
  }
}
