/** Every step of every process keeps the invariant. */
module Preservation {
  import opened Sums
  import opened Protocol
  import opened Accounts
  import opened Invariant

  // ---- frames: a step that touches one transaction

  /** What the main goroutine and the ledger see of a transaction. */
  ghost predicate SameFace(t: Tx, t': Tx) {
    && t'.user == t.user && t'.taken == t.taken && t'.epoch == t.epoch && t'.handle == t.handle
    && t.answers <= t'.answers
  }

  ghost predicate SameLoopFace(loops: seq<LoopPc<Job>>, loops': seq<LoopPc<Job>>) {
    && |loops'| == |loops|
    && forall p :: 0 <= p < |loops| ==> (loops'[p].Exited? <==> loops[p].Exited?)
  }

  lemma TxsFrame(c: Config, s: State, s': State, n: nat)
    requires Shape(c, s) && Shape(c, s') && TxsInv(c, s) && n < |s.txs|
    requires s'.txs == s.txs[n := s'.txs[n]] && s'.epoch == s.epoch
    requires forall r :: c.users <= r < |s.grants| && r != c.users + n ==> s'.grants[r] == s.grants[r]
    requires TxInv(c, s'.txs[n], s'.grants[c.users + n], s'.epoch)
    ensures TxsInv(c, s')
  {
  }

  lemma FaceFrame(c: Config, s: State, s': State, n: nat)
    requires Shape(c, s) && Shape(c, s') && MainInv(c, s) && LedgerInv(c, s) && n < |s.txs|
    requires s'.txs == s.txs[n := s'.txs[n]] && SameFace(s.txs[n], s'.txs[n])
    requires s'.main == s.main && s'.grants == s.grants && s'.authority == s.authority && s'.ledger == s.ledger
    requires SameLoopFace(s.loops, s'.loops)
    ensures MainInv(c, s') && LedgerInv(c, s')
  {
    forall k | 0 <= k < |s'.ledger| ensures EntryInv(c, s', s'.ledger[k]) {
      var e := s.ledger[k];
      assert EntryInv(c, s, e);
      if e.tx == n {
        assert s'.txs[n].answers[..s'.txs[n].taken] == s.txs[n].answers[..s.txs[n].taken];
      }
    }
    forall m | 0 <= m < |s'.txs| && !s'.txs[m].user.Waiting? ensures Started(c, s', m) {
      assert Started(c, s, m);
    }
  }

  /** Loop p turns to `next`; the jobs of other transactions are not in it. */
  lemma LoopFrame(c: Config, s: State, s': State, n: nat, p: nat)
    requires Shape(c, s) && Shape(c, s') && LoopsInv(c, s) && n < |s.txs| && p < c.peers
    requires s'.txs == s.txs[n := s'.txs[n]]
    requires s'.loops == s.loops[p := s'.loops[p]]
    requires s.loops[p].Select? || (s.loops[p].Busy? && s.loops[p].job.tx == n)
    requires TxLoops(c, n, s'.txs[n], s'.loops)
    requires LoopInv(c, s', p)
    requires forall q :: 0 <= q < c.peers && q != p && s.loops[q].Busy? && s.loops[q].job.tx == n ==> LoopInv(c, s', q)
    ensures LoopsInv(c, s')
  {
    forall q | 0 <= q < c.peers ensures LoopInv(c, s', q) {
      assert LoopInv(c, s, q);
    }
    forall m | 0 <= m < |s'.txs| ensures TxLoops(c, m, s'.txs[m], s'.loops) {
      assert TxLoops(c, m, s.txs[m], s.loops);
    }
  }

  /** The loops stay as they are, and so does every job that sits in one. */
  lemma LoopStill(c: Config, s: State, s': State, n: nat)
    requires Shape(c, s) && Shape(c, s') && LoopsInv(c, s) && n < |s.txs|
    requires s'.txs == s.txs[n := s'.txs[n]] && s'.loops == s.loops
    requires var t, t' := s.txs[n], s'.txs[n];
      && (forall i :: 0 <= i < c.endorsements ==> (InLoop(t'.endorse[i]) <==> InLoop(t.endorse[i])))
      && (InLoop(t'.order) <==> InLoop(t.order))
      && (forall i :: 0 <= i < c.peers ==> (InLoop(t'.validate[i]) <==> InLoop(t.validate[i])))
    ensures LoopsInv(c, s')
  {
    forall q | 0 <= q < c.peers ensures LoopInv(c, s', q) {
      assert LoopInv(c, s, q);
    }
    forall m | 0 <= m < |s'.txs| ensures TxLoops(c, m, s'.txs[m], s'.loops) {
      assert TxLoops(c, m, s.txs[m], s.loops);
    }
  }

  /** The jobs of a transaction that sit in a loop are the same before and after. */
  ghost predicate SameLoopJobs(t: Tx, t': Tx)
    requires |t'.endorse| == |t.endorse| && |t'.validate| == |t.validate|
  {
    && (forall i :: 0 <= i < |t.endorse| ==> (InLoop(t'.endorse[i]) <==> InLoop(t.endorse[i])))
    && (InLoop(t'.order) <==> InLoop(t.order))
    && (forall i :: 0 <= i < |t.validate| ==> (InLoop(t'.validate[i]) <==> InLoop(t.validate[i])))
  }

  /** A change of a transaction that neither its user, nor the ledger, nor any loop sees. */
  ghost predicate Quiet(c: Config, t: Tx, t': Tx, g: Grant, epoch: nat)
    requires TxShape(c, t)
  {
    TxInv(c, t', g, epoch) && SameFace(t, t') && SameLoopJobs(t, t')
  }

  /** A step of a goroutine outside the loops: only its transaction, permits and events change. */
  ghost predicate GoroutineFrame(c: Config, s: State, s': State, n: nat) {
    && Shape(c, s') && n < |s.txs| == |s'.txs|
    && s' == s.(txs := s.txs[n := s'.txs[n]], events := s'.events,
                endorsePermits := s'.endorsePermits, validatePermits := s'.validatePermits)
  }

  lemma GoroutineStep(c: Config, s: State, s': State, n: nat)
    requires Inv(c, s) && s.crash == NoCrash && GoroutineFrame(c, s, s', n)
    requires Quiet(c, s.txs[n], s'.txs[n], s.grants[c.users + n], s.epoch)
    ensures Inv(c, s')
  {
    TxsFrame(c, s, s', n);
    FaceFrame(c, s, s', n);
    LoopStill(c, s, s', n);
  }

  // ---- endorse goroutines

  lemma EndorserTx(c: Config, t: Tx, g: Grant, epoch: nat, slot: nat, pc: JobPc)
    requires TxInv(c, t, g, epoch) && slot < c.endorsements
    requires !t.endorse[slot].Unsent? && !pc.Unsent? && (pc.Working? ==> pc.at < 4)
    requires Replied(pc) <==> Replied(t.endorse[slot])
    ensures TxInv(c, t.(endorse := t.endorse[slot := pc]), g, epoch)
  {
  }

  lemma EndorserReplyTx(c: Config, t: Tx, g: Grant, epoch: nat, slot: nat)
    requires TxInv(c, t, g, epoch) && slot < c.endorsements && t.endorse[slot].Replying?
    ensures TxInv(c, t.(endorse := t.endorse[slot := Releasing], answers := t.answers + [slot]), g, epoch)
  {
  }

  lemma EndorserQuiet(c: Config, t: Tx, g: Grant, epoch: nat, slot: nat, pc: JobPc)
    requires TxInv(c, t, g, epoch) && slot < c.endorsements && Holds(t.endorse[slot])
    requires pc.Working? ==> pc.at < 4
    requires if t.endorse[slot].Releasing? then pc.Gone? else pc.Working? || pc.Replying?
    ensures Quiet(c, t, t.(endorse := t.endorse[slot := pc]), g, epoch)
  {
    EndorserTx(c, t, g, epoch, slot, pc);
  }

  lemma EndorserTxKeeps(c: Config, s: State, n: nat, slot: nat, hit: bool)
    requires Shape(c, s) && EndorserCan(c, s, n, slot) && TxInv(c, s.txs[n], s.grants[c.users + n], s.epoch)
    ensures Quiet(c, s.txs[n], EndorserStep(c, s, n, slot, hit).txs[n], s.grants[c.users + n], s.epoch)
  {
    var t, t', g := s.txs[n], EndorserStep(c, s, n, slot, hit).txs[n], s.grants[c.users + n];
    if t.endorse[slot].Replying? {
      EndorserReplyTx(c, t, g, s.epoch, slot);
    } else {
      EndorserQuiet(c, t, g, s.epoch, slot, t'.endorse[slot]);
    }
  }

  lemma EndorserFrame(c: Config, s: State, n: nat, slot: nat, hit: bool)
    requires Shape(c, s) && EndorserCan(c, s, n, slot)
    ensures GoroutineFrame(c, s, EndorserStep(c, s, n, slot, hit), n)
  {
  }

  lemma EndorserKeeps(c: Config, s: State, n: nat, slot: nat, hit: bool)
    requires Inv(c, s) && s.crash == NoCrash && EndorserCan(c, s, n, slot)
    ensures Inv(c, EndorserStep(c, s, n, slot, hit))
  {
    EndorserTxKeeps(c, s, n, slot, hit);
    EndorserFrame(c, s, n, slot, hit);
    GoroutineStep(c, s, EndorserStep(c, s, n, slot, hit), n);
  }

  // ---- order goroutines

  lemma OrdererSendTx(c: Config, t: Tx, g: Grant, epoch: nat)
    requires TxInv(c, t, g, epoch) && t.order.Working? && t.order.at >= 1
    ensures var at := t.order.at;
            t.validate[at - 1].Unsent? &&
            TxInv(c, t.(order := if at < c.peers then Working(at + 1) else Gone,
                        validate := t.validate[at - 1 := Received]), g, epoch)
  {
  }

  lemma OrdererCheckTx(c: Config, t: Tx, g: Grant, epoch: nat)
    requires TxInv(c, t, g, epoch) && c.peers >= 1 && t.order == Working(0)
    ensures Quiet(c, t, t.(order := Working(1)), g, epoch)
  {
  }

  lemma OrdererChecks(c: Config, s: State, n: nat, hit: bool)
    requires Inv(c, s) && s.crash == NoCrash && OrdererCan(c, s, n) && s.txs[n].order.at == 0
    ensures Inv(c, OrdererStep(c, s, n, hit))
  {
    OrdererCheckTx(c, s.txs[n], s.grants[c.users + n], s.epoch);
    GoroutineStep(c, s, OrdererStep(c, s, n, hit), n);
  }

  /** The orderer hands its transaction to a peer. */
  ghost predicate OrdererSent(c: Config, s: State, s': State, n: nat, p: nat) {
    && Shape(c, s') && n < |s.txs| == |s'.txs| && p < |s.loops| == |s'.loops|
    && s' == s.(txs := s.txs[n := s'.txs[n]], loops := s.loops[p := Busy(ValidateJob(n, p))])
    && s.loops[p].Select? && p < |s.txs[n].validate|
    && s'.txs[n] == s.txs[n].(order := s'.txs[n].order, validate := s.txs[n].validate[p := Received])
    && !InLoop(s.txs[n].order) && !InLoop(s'.txs[n].order)
  }

  lemma OrdererSends(c: Config, s: State, s': State, n: nat, p: nat)
    requires Inv(c, s) && s.crash == NoCrash && OrdererSent(c, s, s', n, p)
    requires TxInv(c, s'.txs[n], s.grants[c.users + n], s.epoch)
    ensures Inv(c, s')
  {
    TxsFrame(c, s, s', n);
    FaceFrame(c, s, s', n);
    SendLoops(c, s, s', n, p);
  }

  lemma OrdererFrame(c: Config, s: State, n: nat, hit: bool)
    requires Shape(c, s) && OrdererCan(c, s, n) && s.txs[n].order.at >= 1
    ensures OrdererSent(c, s, OrdererStep(c, s, n, hit), n, s.txs[n].order.at - 1)
  {
    var s' := OrdererStep(c, s, n, hit);
    assert s'.events == s.events && s'.txs == s.txs[n := s'.txs[n]];
  }

  lemma OrdererTx(c: Config, s: State, n: nat, hit: bool)
    requires Shape(c, s) && OrdererCan(c, s, n) && s.txs[n].order.at >= 1
    requires TxInv(c, s.txs[n], s.grants[c.users + n], s.epoch)
    ensures TxInv(c, OrdererStep(c, s, n, hit).txs[n], s.grants[c.users + n], s.epoch)
  {
    OrdererSendTx(c, s.txs[n], s.grants[c.users + n], s.epoch);
  }

  lemma OrdererSendKeeps(c: Config, s: State, n: nat, hit: bool)
    requires Inv(c, s) && s.crash == NoCrash && OrdererCan(c, s, n) && s.txs[n].order.at >= 1
    ensures Inv(c, OrdererStep(c, s, n, hit))
  {
    OrdererTx(c, s, n, hit);
    OrdererFrame(c, s, n, hit);
    OrdererSends(c, s, OrdererStep(c, s, n, hit), n, s.txs[n].order.at - 1);
  }

  lemma OrdererKeeps(c: Config, s: State, n: nat, hit: bool)
    requires Inv(c, s) && s.crash == NoCrash && OrdererCan(c, s, n)
    ensures Inv(c, OrdererStep(c, s, n, hit))
  {
    if s.txs[n].order.at == 0 {
      OrdererChecks(c, s, n, hit);
    } else {
      OrdererSendKeeps(c, s, n, hit);
    }
  }

  /** A send to a selecting loop: the job of transaction n that arrives is the only one that changes. */
  lemma SendLoops(c: Config, s: State, s': State, n: nat, p: nat)
    requires Shape(c, s) && Shape(c, s') && LoopsInv(c, s) && n < |s.txs| && p < c.peers
    requires s'.txs == s.txs[n := s'.txs[n]] && s.loops[p].Select? && s'.loops[p].Busy?
    requires s'.loops == s.loops[p := s'.loops[p]]
    requires var t, t', j := s.txs[n], s'.txs[n], s'.loops[p].job;
      && j.tx == n && IsJob(c, s, j) && PeerOf(c, j) == p && PcOf(c, s', j).Received?
      && (forall i :: 0 <= i < c.endorsements && j != EndorseJob(n, i) ==> t'.endorse[i] == t.endorse[i])
      && (!j.OrderJob? ==> (InLoop(t'.order) <==> InLoop(t.order)))
      && (forall i :: 0 <= i < c.peers && j != ValidateJob(n, i) ==> t'.validate[i] == t.validate[i])
    ensures LoopsInv(c, s')
  {
    var j := s'.loops[p].job;
    assert TxLoops(c, n, s.txs[n], s.loops);
    assert TxLoops(c, n, s'.txs[n], s'.loops);
    forall q | 0 <= q < c.peers && q != p && s.loops[q].Busy? && s.loops[q].job.tx == n
      ensures LoopInv(c, s', q)
    {
      assert LoopInv(c, s, q);
    }
    LoopFrame(c, s, s', n, p);
  }

  // ---- validate goroutines

  lemma ValidatorTx(c: Config, t: Tx, g: Grant, epoch: nat, p: nat, pc: JobPc)
    requires TxInv(c, t, g, epoch) && p < c.peers
    requires !t.validate[p].Unsent? && !pc.Unsent? && (pc.Working? ==> pc.at < 5)
    requires Replied(pc) <==> Replied(t.validate[p])
    requires c.revoke && (pc.Replying? || Replied(pc)) ==> t.epoch == t.handle
    ensures TxInv(c, t.(validate := t.validate[p := pc]), g, epoch)
  {
  }

  lemma ValidatorReplyTx(c: Config, t: Tx, g: Grant, epoch: nat, p: nat)
    requires TxInv(c, t, g, epoch) && p < c.peers && t.validate[p].Replying?
    ensures TxInv(c, t.(validate := t.validate[p := Releasing], commits := t.commits + [p]), g, epoch)
  {
    var t' := t.(validate := t.validate[p := Releasing], commits := t.commits + [p]);
    LogBound(t'.commits, c.peers);
  }

  /** A validator at work on a built transaction: all endorsements are in, and the handle, if any, is
      no older than the epoch it is proved for. */
  lemma ValidatorAtWork(c: Config, t: Tx, g: Grant, epoch: nat, p: nat)
    requires TxInv(c, t, g, epoch) && p < c.peers && !t.validate[p].Unsent?
    ensures Ordered(t.user) && t.taken == c.endorsements
    ensures c.revoke ==> t.epoch <= t.handle
  {
  }

  /** The validate goroutine's step seen from its transaction. */
  lemma ValidatorQuiet(c: Config, t: Tx, g: Grant, epoch: nat, p: nat, pc: JobPc)
    requires TxInv(c, t, g, epoch) && p < c.peers && Holds(t.validate[p])
    requires pc.Working? ==> pc.at < 5
    requires if t.validate[p].Releasing? then pc.Gone? else pc.Working? || pc.Replying?
    requires c.revoke && pc.Replying? ==> t.epoch == t.handle
    ensures Quiet(c, t, t.(validate := t.validate[p := pc]), g, epoch)
  {
    ValidatorTx(c, t, g, epoch, p, pc);
  }

  lemma ValidatorTxKeeps(c: Config, s: State, n: nat, p: nat, hit: bool)
    requires Shape(c, s) && ValidatorCan(c, s, n, p) && TxInv(c, s.txs[n], s.grants[c.users + n], s.epoch)
    requires ValidatorStep(c, s, n, p, hit).crash == NoCrash
    ensures Quiet(c, s.txs[n], ValidatorStep(c, s, n, p, hit).txs[n], s.grants[c.users + n], s.epoch)
  {
    var t, t', g := s.txs[n], ValidatorStep(c, s, n, p, hit).txs[n], s.grants[c.users + n];
    if t.validate[p].Replying? {
      ValidatorReplyTx(c, t, g, s.epoch, p);
    } else {
      ValidatorQuiet(c, t, g, s.epoch, p, t'.validate[p]);
    }
  }

  lemma ValidatorFrame(c: Config, s: State, n: nat, p: nat, hit: bool)
    requires Shape(c, s) && ValidatorCan(c, s, n, p) && ValidatorStep(c, s, n, p, hit).crash == NoCrash
    requires s.crash == NoCrash
    ensures GoroutineFrame(c, s, ValidatorStep(c, s, n, p, hit), n)
  {
  }

  lemma ValidatorWorks(c: Config, s: State, n: nat, p: nat, hit: bool)
    requires Inv(c, s) && s.crash == NoCrash && ValidatorCan(c, s, n, p)
    requires ValidatorStep(c, s, n, p, hit).crash == NoCrash
    ensures Inv(c, ValidatorStep(c, s, n, p, hit))
  {
    ValidatorTxKeeps(c, s, n, p, hit);
    ValidatorFrame(c, s, n, p, hit);
    GoroutineStep(c, s, ValidatorStep(c, s, n, p, hit), n);
  }

  lemma ValidatorKeeps(c: Config, s: State, n: nat, p: nat, hit: bool)
    requires Inv(c, s) && s.crash == NoCrash && ValidatorCan(c, s, n, p)
    ensures Inv(c, ValidatorStep(c, s, n, p, hit))
  {
    var s' := ValidatorStep(c, s, n, p, hit);
    if s'.crash == NoCrash {
      ValidatorWorks(c, s, n, p, hit);
    } else {
      ValidatorAtWork(c, s.txs[n], s.grants[c.users + n], s.epoch, p);
      CrashKeeps(c, s, n);
    }
  }

  lemma CrashKeeps(c: Config, s: State, n: nat)
    requires Inv(c, s) && n < |s.txs| && c.revoke
    requires Ordered(s.txs[n].user) && s.txs[n].epoch < s.txs[n].handle
    ensures Inv(c, s.(crash := StaleHandle(n)))
  {
    var s' := s.(crash := StaleHandle(n));
    forall q | 0 <= q < c.peers ensures LoopInv(c, s', q) {
      assert LoopInv(c, s, q);
    }
    forall k | 0 <= k < |s'.ledger| ensures EntryInv(c, s', s'.ledger[k]) {
      assert EntryInv(c, s, s.ledger[k]);
    }
    forall m | 0 <= m < |s'.txs| && !s'.txs[m].user.Waiting? ensures Started(c, s', m) {
      assert Started(c, s, m);
    }
  }

  // ---- the loops of the peers

  /** The job in loop p moves on inside the loop, or leaves it. */
  lemma LoopJobLoops(c: Config, s: State, s': State, p: nat)
    requires Shape(c, s) && Shape(c, s') && LoopsInv(c, s) && p < c.peers && s.loops[p].Busy?
    requires var j := s.loops[p].job;
      && IsJob(c, s, j) && PeerOf(c, j) == p
      && s'.txs == s.txs[j.tx := s'.txs[j.tx]]
      && s'.loops == s.loops[p := s'.loops[p]]
      && (if InLoop(PcOf(c, s', j)) then s'.loops[p] == s.loops[p] else s'.loops[p].Select?)
    requires var j := s.loops[p].job;
      var t, t' := s.txs[j.tx], s'.txs[j.tx];
      && (forall i :: 0 <= i < c.endorsements && j != EndorseJob(j.tx, i) ==> t'.endorse[i] == t.endorse[i])
      && (!j.OrderJob? ==> t'.order == t.order)
      && (forall i :: 0 <= i < c.peers && j != ValidateJob(j.tx, i) ==> t'.validate[i] == t.validate[i])
    ensures LoopsInv(c, s')
  {
    var j := s.loops[p].job;
    assert TxLoops(c, j.tx, s.txs[j.tx], s.loops);
    assert TxLoops(c, j.tx, s'.txs[j.tx], s'.loops);
    forall q | 0 <= q < c.peers && q != p && s.loops[q].Busy? && s.loops[q].job.tx == j.tx
      ensures LoopInv(c, s', q)
    {
      assert LoopInv(c, s, q);
    }
    LoopFrame(c, s, s', j.tx, p);
  }

  lemma LoopEndorseTx(c: Config, s: State, p: nat)
    requires Shape(c, s) && LoopCan(c, s, p) && s.loops[p].job.EndorseJob?
    requires var n := s.loops[p].job.tx; TxInv(c, s.txs[n], s.grants[c.users + n], s.epoch)
    ensures var s', n := LoopStep(c, s, p), s.loops[p].job.tx;
            TxInv(c, s'.txs[n], s.grants[c.users + n], s.epoch) && SameFace(s.txs[n], s'.txs[n])
  {
    var n, slot := s.loops[p].job.tx, s.loops[p].job.slot;
    var t, g := s.txs[n], s.grants[c.users + n];
    EndorserTx(c, t, g, s.epoch, slot, if t.endorse[slot].Received? then Acquiring else Working(0));
  }

  lemma LoopOrderTx(c: Config, t: Tx, g: Grant, epoch: nat)
    requires TxInv(c, t, g, epoch) && t.order.Received?
    ensures TxInv(c, t.(order := Working(0)), g, epoch)
  {
  }

  lemma LoopValidateTx(c: Config, s: State, p: nat)
    requires Shape(c, s) && LoopCan(c, s, p) && s.loops[p].job.ValidateJob?
    requires var n := s.loops[p].job.tx; TxInv(c, s.txs[n], s.grants[c.users + n], s.epoch)
    ensures var s', n := LoopStep(c, s, p), s.loops[p].job.tx;
            TxInv(c, s'.txs[n], s.grants[c.users + n], s.epoch) && SameFace(s.txs[n], s'.txs[n])
  {
    var n, peer := s.loops[p].job.tx, s.loops[p].job.peer;
    var t, g := s.txs[n], s.grants[c.users + n];
    ValidatorTx(c, t, g, s.epoch, peer, if t.validate[peer].Received? then Acquiring else Working(0));
  }

  lemma LoopTx(c: Config, s: State, p: nat)
    requires Shape(c, s) && LoopCan(c, s, p)
    requires var n := s.loops[p].job.tx; TxInv(c, s.txs[n], s.grants[c.users + n], s.epoch)
    ensures var s', n := LoopStep(c, s, p), s.loops[p].job.tx;
            TxInv(c, s'.txs[n], s.grants[c.users + n], s.epoch) && SameFace(s.txs[n], s'.txs[n])
  {
    match s.loops[p].job
    case EndorseJob(_, _) => LoopEndorseTx(c, s, p);
    case OrderJob(n) => LoopOrderTx(c, s.txs[n], s.grants[c.users + n], s.epoch);
    case ValidateJob(_, _) => LoopValidateTx(c, s, p);
  }

  /** Only the job of loop p moves: inside the loop, or out of it. */
  ghost predicate LoopMoved(c: Config, s: State, s': State, p: nat)
    requires Shape(c, s) && LoopCan(c, s, p)
  {
    var j := s.loops[p].job;
    && Shape(c, s')
    && s' == s.(txs := s.txs[j.tx := s'.txs[j.tx]], loops := s.loops[p := s'.loops[p]], events := s'.events,
                endorsePermits := s'.endorsePermits, validatePermits := s'.validatePermits)
    && (if InLoop(PcOf(c, s', j)) then s'.loops[p] == s.loops[p] else s'.loops[p].Select?)
    && OthersStay(c, s.txs[j.tx], s'.txs[j.tx], j)
  }

  ghost predicate OthersStay(c: Config, t: Tx, t': Tx, j: Job)
    requires TxShape(c, t) && TxShape(c, t')
  {
    && (forall i :: 0 <= i < c.endorsements && j != EndorseJob(j.tx, i) ==> t'.endorse[i] == t.endorse[i])
    && (!j.OrderJob? ==> t'.order == t.order)
    && (forall i :: 0 <= i < c.peers && j != ValidateJob(j.tx, i) ==> t'.validate[i] == t.validate[i])
  }

  lemma LoopFrameOf(c: Config, s: State, p: nat)
    requires Shape(c, s) && LoopCan(c, s, p)
    ensures LoopMoved(c, s, LoopStep(c, s, p), p)
  {
    match s.loops[p].job
    case EndorseJob(n, slot) => if s.txs[n].endorse[slot].Received? {} else {}
    case OrderJob(_) =>
    case ValidateJob(n, peer) => if s.txs[n].validate[peer].Received? {} else {}
  }

  lemma LoopMoves(c: Config, s: State, s': State, p: nat)
    requires Inv(c, s) && s.crash == NoCrash && LoopCan(c, s, p) && LoopMoved(c, s, s', p)
    requires var n := s.loops[p].job.tx;
      TxInv(c, s'.txs[n], s.grants[c.users + n], s.epoch) && SameFace(s.txs[n], s'.txs[n])
    ensures Inv(c, s')
  {
    var n := s.loops[p].job.tx;
    assert LoopInv(c, s, p);
    TxsFrame(c, s, s', n);
    FaceFrame(c, s, s', n);
    LoopJobLoops(c, s, s', p);
  }

  lemma LoopKeeps(c: Config, s: State, p: nat)
    requires Inv(c, s) && s.crash == NoCrash && LoopCan(c, s, p)
    ensures Inv(c, LoopStep(c, s, p))
  {
    LoopFrameOf(c, s, p);
    LoopTx(c, s, p);
    LoopMoves(c, s, LoopStep(c, s, p), p);
  }

  // ---- submitTransaction

  /** A user moves on, but not to the end: the main goroutine and the ledger see no difference. */
  lemma UserFrame(c: Config, s: State, s': State, n: nat)
    requires Shape(c, s) && Shape(c, s') && MainInv(c, s) && LedgerInv(c, s) && n < |s.txs|
    requires s'.txs == s.txs[n := s'.txs[n]] && !s.txs[n].user.Done? && !s'.txs[n].user.Done?
    requires s.txs[n].user.Waiting? ==> Started(c, s, n)
    requires s'.main == s.main && s'.ledger == s.ledger
    requires s.authority.Exited? <==> s'.authority.Exited?
    requires forall u :: 0 <= u < c.users ==> s'.grants[u] == s.grants[u]
    requires SameLoopFace(s.loops, s'.loops)
    ensures MainInv(c, s') && LedgerInv(c, s')
  {
    forall k | 0 <= k < |s'.ledger| ensures EntryInv(c, s', s'.ledger[k]) {
      assert EntryInv(c, s, s.ledger[k]);
      assert LedgerTxs(s.ledger)[k] == s.ledger[k].tx;
    }
    forall m | 0 <= m < |s'.txs| && !s'.txs[m].user.Waiting? ensures Started(c, s', m) {
      assert Started(c, s, m);
    }
  }

  /** A step of submitTransaction that touches no channel of another process. */
  ghost predicate UserAlone(c: Config, s: State, s': State, n: nat) {
    && Shape(c, s') && n < |s.txs| == |s'.txs|
    && s' == s.(txs := s.txs[n := s'.txs[n]], events := s'.events)
    && s'.txs[n].endorse == s.txs[n].endorse && s'.txs[n].order == s.txs[n].order
    && s'.txs[n].validate == s.txs[n].validate
    && !s.txs[n].user.Done? && !s'.txs[n].user.Done?
  }

  lemma UserLocal(c: Config, s: State, s': State, n: nat)
    requires Inv(c, s) && s.crash == NoCrash && UserAlone(c, s, s', n)
    requires s.txs[n].user.Waiting? ==> Started(c, s, n)
    requires TxInv(c, s'.txs[n], s.grants[c.users + n], s.epoch)
    ensures Inv(c, s')
  {
    TxsFrame(c, s, s', n);
    UserFrame(c, s, s', n);
    LoopStill(c, s, s', n);
  }

  predicate Local(c: Config, u: UserPc) {
    u.Waiting? || u.Collecting? || u.Building? || (u.Committing? && u.got < c.peers)
  }

  lemma LocalFrame(c: Config, s: State, n: nat)
    requires Shape(c, s) && UserCan(c, s, n)
    requires Local(c, s.txs[n].user) || (s.txs[n].user.Reading? && s.txs[n].epoch != s.epoch)
    ensures UserAlone(c, s, UserStep(c, s, n), n)
  {
    match s.txs[n].user
    case Waiting =>
    case Collecting =>
    case Building =>
    case _ =>
  }

  /** A message of submitTransaction reaches the select loop of a peer. */
  ghost predicate UserSent(c: Config, s: State, s': State, n: nat, p: nat, j: Job) {
    && Shape(c, s') && n < |s.txs| == |s'.txs| && p < |s.loops| == |s'.loops| && s.loops[p].Select?
    && s' == s.(txs := s.txs[n := s'.txs[n]], loops := s.loops[p := Busy(j)])
    && !s.txs[n].user.Done? && !s'.txs[n].user.Done? && !s.txs[n].user.Waiting?
    && s'.txs[n].validate == s.txs[n].validate
    && match j
       case EndorseJob(m, slot) =>
         && m == n && slot < |s.txs[n].endorse| && s'.txs[n].endorse == s.txs[n].endorse[slot := Received]
         && s'.txs[n].order == s.txs[n].order && EndorserAt(c, n, slot) == p
       case OrderJob(m) =>
         m == n && s'.txs[n].endorse == s.txs[n].endorse && s'.txs[n].order == Received && OrdererOf(c, n) == p
       case ValidateJob(_, _) => false
  }

  lemma UserSendKeeps(c: Config, s: State, s': State, n: nat, p: nat, j: Job)
    requires Inv(c, s) && s.crash == NoCrash && UserSent(c, s, s', n, p, j)
    requires TxInv(c, s'.txs[n], s.grants[c.users + n], s.epoch)
    ensures Inv(c, s')
  {
    TxsFrame(c, s, s', n);
    UserFrame(c, s, s', n);
    SendLoops(c, s, s', n, p);
  }

  lemma SendTx(c: Config, t: Tx, g: Grant, epoch: nat)
    requires TxInv(c, t, g, epoch) && t.user.Sending?
    ensures var slot := t.user.slot;
            slot < c.endorsements && t.endorse[slot].Unsent? &&
            TxInv(c, t.(user := if slot + 1 < c.endorsements then Sending(slot + 1) else Collecting,
                        endorse := t.endorse[slot := Received]), g, epoch)
  {
  }

  lemma SendFrame(c: Config, s: State, n: nat)
    requires Shape(c, s) && UserCan(c, s, n) && s.txs[n].user.Sending?
    ensures var slot := s.txs[n].user.slot;
      UserSent(c, s, UserStep(c, s, n), n, EndorserAt(c, n, slot), EndorseJob(n, slot))
  {
  }

  lemma UserSends(c: Config, s: State, n: nat)
    requires Inv(c, s) && s.crash == NoCrash && UserCan(c, s, n) && s.txs[n].user.Sending?
    ensures Inv(c, UserStep(c, s, n))
  {
    var slot := s.txs[n].user.slot;
    SendTx(c, s.txs[n], s.grants[c.users + n], s.epoch);
    SendFrame(c, s, n);
    UserSendKeeps(c, s, UserStep(c, s, n), n, EndorserAt(c, n, slot), EndorseJob(n, slot));
  }

  lemma OrderTx(c: Config, t: Tx, g: Grant, epoch: nat)
    requires TxInv(c, t, g, epoch) && t.user.Ordering?
    ensures TxInv(c, t.(user := Committing(0), order := Received), g, epoch)
  {
  }

  lemma OrderFrame(c: Config, s: State, n: nat)
    requires Shape(c, s) && UserCan(c, s, n) && s.txs[n].user.Ordering?
    ensures UserSent(c, s, UserStep(c, s, n), n, OrdererOf(c, n), OrderJob(n))
  {
  }

  lemma UserOrders(c: Config, s: State, n: nat)
    requires Inv(c, s) && s.crash == NoCrash && UserCan(c, s, n) && s.txs[n].user.Ordering?
    ensures Inv(c, UserStep(c, s, n))
  {
    OrderTx(c, s.txs[n], s.grants[c.users + n], s.epoch);
    OrderFrame(c, s, n);
    UserSendKeeps(c, s, UserStep(c, s, n), n, OrdererOf(c, n), OrderJob(n));
  }

  /** A step of submitTransaction that meets the authority or a grant. */
  ghost predicate UserGranted(c: Config, s: State, s': State, n: nat) {
    && Shape(c, s') && n < |s.txs| == |s'.txs| && c.users + n < |s.grants| == |s'.grants|
    && s' == s.(txs := s.txs[n := s'.txs[n]], authority := s'.authority,
                grants := s.grants[c.users + n := s'.grants[c.users + n]])
    && s'.txs[n].endorse == s.txs[n].endorse && s'.txs[n].order == s.txs[n].order
    && s'.txs[n].validate == s.txs[n].validate
    && !s.txs[n].user.Done? && !s'.txs[n].user.Done? && !s.txs[n].user.Waiting?
  }

  lemma UserGrantKeeps(c: Config, s: State, s': State, n: nat)
    requires Inv(c, s) && s.crash == NoCrash && UserGranted(c, s, s', n)
    requires TxInv(c, s'.txs[n], s'.grants[c.users + n], s'.epoch) && AuthorityInv(c, s')
    requires s.authority.Exited? <==> s'.authority.Exited?
    ensures Inv(c, s')
  {
    TxsFrame(c, s, s', n);
    UserFrame(c, s, s', n);
    LoopStill(c, s, s', n);
  }

  lemma RequestTx(c: Config, t: Tx, g: Grant, epoch: nat)
    requires TxInv(c, t, g, epoch) && t.user.Requesting?
    ensures c.revoke && g.pc.Unsent? && TxInv(c, t.(user := Awaiting), g.(pc := Received), epoch)
  {
  }

  lemma RequestFrame(c: Config, s: State, n: nat)
    requires Shape(c, s) && UserCan(c, s, n) && s.txs[n].user.Requesting?
    ensures UserGranted(c, s, UserStep(c, s, n), n)
  {
  }

  lemma RequestAuthority(c: Config, s: State, n: nat)
    requires Shape(c, s) && AuthorityInv(c, s) && UserCan(c, s, n) && s.txs[n].user.Requesting? && c.revoke
    requires Shape(c, UserStep(c, s, n))
    ensures AuthorityInv(c, UserStep(c, s, n))
  {
  }

  /** The request reaches the authority; the grant of this transaction is now in its loop. */
  lemma UserRequests(c: Config, s: State, n: nat)
    requires Inv(c, s) && s.crash == NoCrash && UserCan(c, s, n) && s.txs[n].user.Requesting?
    ensures Inv(c, UserStep(c, s, n))
  {
    RequestTx(c, s.txs[n], s.grants[c.users + n], s.epoch);
    RequestFrame(c, s, n);
    RequestAuthority(c, s, n);
    UserGrantKeeps(c, s, UserStep(c, s, n), n);
  }

  lemma ReceiveTx(c: Config, t: Tx, g: Grant, epoch: nat)
    requires TxInv(c, t, g, epoch) && t.user.Awaiting? && g.pc.Replying?
    ensures TxInv(c, t.(user := Building, handle := g.signed), g.(pc := Releasing), epoch)
  {
  }

  lemma ReceiveFrame(c: Config, s: State, n: nat)
    requires Shape(c, s) && UserCan(c, s, n) && s.txs[n].user.Awaiting?
    ensures UserGranted(c, s, UserStep(c, s, n), n)
  {
  }

  lemma ReceiveAuthority(c: Config, s: State, n: nat)
    requires Shape(c, s) && AuthorityInv(c, s) && UserCan(c, s, n) && s.txs[n].user.Awaiting?
    requires Shape(c, UserStep(c, s, n))
    ensures AuthorityInv(c, UserStep(c, s, n))
  {
  }

  lemma UserReceives(c: Config, s: State, n: nat)
    requires Inv(c, s) && s.crash == NoCrash && UserCan(c, s, n) && s.txs[n].user.Awaiting?
    ensures Inv(c, UserStep(c, s, n))
  {
    ReceiveTx(c, s.txs[n], s.grants[c.users + n], s.epoch);
    ReceiveFrame(c, s, n);
    ReceiveAuthority(c, s, n);
    UserGrantKeeps(c, s, UserStep(c, s, n), n);
  }

  lemma CommitTx(c: Config, t: Tx, g: Grant, epoch: nat)
    requires TxInv(c, t, g, epoch) && t.user == Committing(c.peers)
    ensures TxInv(c, t.(user := Done), g, epoch)
  {
    LogBound(t.commits, c.peers);
  }

  lemma UserCommits(c: Config, s: State, n: nat)
    requires Inv(c, s) && s.crash == NoCrash && UserCan(c, s, n) && s.txs[n].user == Committing(c.peers)
    ensures Inv(c, UserStep(c, s, n))
  {
    var s' := UserStep(c, s, n);
    CommitTx(c, s.txs[n], s.grants[c.users + n], s.epoch);
    TxsFrame(c, s, s', n);
    LoopStill(c, s, s', n);
    RecordMain(c, s, s', n);
    RecordLedger(c, s, s', n);
  }

  lemma RecordMain(c: Config, s: State, s': State, n: nat)
    requires Shape(c, s) && Shape(c, s') && MainInv(c, s) && n < |s.txs| && !s.txs[n].user.Waiting?
    requires s'.txs == s.txs[n := s.txs[n].(user := Done)]
    requires s'.main == s.main && s'.grants == s.grants && s'.authority == s.authority && s'.loops == s.loops
    ensures MainInv(c, s')
  {
    forall m | 0 <= m < |s'.txs| && !s'.txs[m].user.Waiting? ensures Started(c, s', m) {
      assert Started(c, s, m);
    }
  }

  lemma RecordLedger(c: Config, s: State, s': State, n: nat)
    requires Shape(c, s) && Shape(c, s') && LedgerInv(c, s) && n < |s.txs| && !s.txs[n].user.Done?
    requires s'.txs == s.txs[n := s.txs[n].(user := Done)]
    requires |s'.ledger| == |s.ledger| + 1 && s'.ledger[..|s.ledger|] == s.ledger
    requires s'.ledger[|s.ledger|].tx == n && EntryInv(c, s', s'.ledger[|s.ledger|])
    ensures LedgerInv(c, s')
  {
    var log, log' := LedgerTxs(s.ledger), LedgerTxs(s'.ledger);
    forall k | 0 <= k < |s.ledger| ensures s'.ledger[k] == s.ledger[k] {
      assert s'.ledger[..|s.ledger|][k] == s'.ledger[k];
    }
    assert log' == log + [n];
    forall k | 0 <= k < |s'.ledger| ensures EntryInv(c, s', s'.ledger[k]) {
      if k < |s.ledger| {
        assert EntryInv(c, s, s.ledger[k]);
        assert log[k] == s.ledger[k].tx;
      }
    }
  }

  lemma ReadTx(c: Config, t: Tx, g: Grant, epoch: nat)
    requires TxInv(c, t, g, epoch) && t.user.Reading? && epoch >= 1
    ensures t.epoch != epoch && TxInv(c, t.(user := Requesting, epoch := epoch), g, epoch)
  {
  }

  lemma UserReads(c: Config, s: State, n: nat)
    requires Inv(c, s) && s.crash == NoCrash && UserCan(c, s, n) && s.txs[n].user.Reading?
    ensures Inv(c, UserStep(c, s, n)) && UserStep(c, s, n).txs[n].user.Requesting?
  {
    ReadTx(c, s.txs[n], s.grants[c.users + n], s.epoch);
    LocalFrame(c, s, n);
    UserLocal(c, s, UserStep(c, s, n), n);
  }

  lemma StartTx(c: Config, t: Tx, g: Grant, epoch: nat, handle: nat)
    requires TxInv(c, t, g, epoch) && t.user.Waiting? && c.endorsements >= 1 && handle <= epoch
    ensures TxInv(c, t.(user := Sending(0), epoch := 0, handle := handle), g, epoch)
  {
  }

  /** The new goroutine's copy of its user: epoch 0 and the handle of the launch. */
  lemma UserStarts(c: Config, s: State, n: nat)
    requires Inv(c, s) && s.crash == NoCrash && UserCan(c, s, n) && s.txs[n].user.Waiting?
    ensures Inv(c, UserStep(c, s, n))
  {
    StartTx(c, s.txs[n], s.grants[c.users + n], s.epoch, s.grants[UserOf(c, n)].signed);
    LocalFrame(c, s, n);
    UserLocal(c, s, UserStep(c, s, n), n);
  }

  lemma BuildTx(c: Config, t: Tx, g: Grant, epoch: nat)
    requires TxInv(c, t, g, epoch)
    ensures t.user.Building? ==> TxInv(c, t.(user := Ordering), g, epoch)
    ensures t.user.Committing? && t.user.got < c.peers && t.user.got < |t.commits| ==>
              TxInv(c, t.(user := Committing(t.user.got + 1)), g, epoch)
  {
    if t.user.Building? {} else {}
  }

  lemma UserBuilds(c: Config, s: State, n: nat)
    requires Inv(c, s) && s.crash == NoCrash && UserCan(c, s, n)
    requires s.txs[n].user.Building? || (s.txs[n].user.Committing? && s.txs[n].user.got < c.peers)
    ensures Inv(c, UserStep(c, s, n))
  {
    BuildTx(c, s.txs[n], s.grants[c.users + n], s.epoch);
    LocalFrame(c, s, n);
    UserLocal(c, s, UserStep(c, s, n), n);
  }

  lemma CollectTx(c: Config, t: Tx, g: Grant, epoch: nat)
    requires TxInv(c, t, g, epoch) && t.user.Collecting? && t.taken < |t.answers|
    ensures TxInv(c, t.(user := if t.taken + 1 < c.endorsements then Collecting else if c.revoke then Reading else Building,
                        taken := t.taken + 1), g, epoch)
  {
    if t.taken + 1 < c.endorsements {} else if c.revoke {} else {}
  }

  lemma UserCollects(c: Config, s: State, n: nat)
    requires Inv(c, s) && s.crash == NoCrash && UserCan(c, s, n) && s.txs[n].user.Collecting?
    ensures Inv(c, UserStep(c, s, n))
  {
    CollectTx(c, s.txs[n], s.grants[c.users + n], s.epoch);
    LocalFrame(c, s, n);
    UserLocal(c, s, UserStep(c, s, n), n);
  }

  lemma UserKeeps(c: Config, s: State, n: nat)
    requires Inv(c, s) && s.crash == NoCrash && UserCan(c, s, n)
    ensures Inv(c, UserStep(c, s, n))
  {
    match s.txs[n].user
    case Waiting => UserStarts(c, s, n);
    case Sending(_) => UserSends(c, s, n);
    case Collecting => UserCollects(c, s, n);
    case Reading => UserReads(c, s, n);
    case Requesting => UserRequests(c, s, n);
    case Awaiting => UserReceives(c, s, n);
    case Building => UserBuilds(c, s, n);
    case Ordering => UserOrders(c, s, n);
    case Committing(got) =>
      if got < c.peers {
        UserBuilds(c, s, n);
      } else {
        assert TxInv(c, s.txs[n], s.grants[c.users + n], s.epoch);
        UserCommits(c, s, n);
      }
  }

  // ---- the revocation authority, its grants and the clock

  /** What has started stays started when the main goroutine goes on. */
  lemma StartedStays(c: Config, s: State, s': State)
    requires Shape(c, s) && Shape(c, s') && MainInv(c, s)
    requires s'.txs == s.txs && Launched(c, s.main) <= Launched(c, s'.main)
    ensures forall n {:trigger Started(c, s', n)} :: 0 <= n < |s'.txs| && !s'.txs[n].user.Waiting? ==> Started(c, s', n)
  {
    forall n | 0 <= n < |s'.txs| && !s'.txs[n].user.Waiting? ensures Started(c, s', n) {
      assert Started(c, s, n);
    }
  }

  /** Only grants, the authority and its permits change; no transaction notices. */
  lemma GrantFrame(c: Config, s: State, s': State)
    requires Inv(c, s) && s.crash == NoCrash && Shape(c, s')
    requires s' == s.(authority := s'.authority, grants := s'.grants, grantPermits := s'.grantPermits, events := s'.events)
    requires AuthorityInv(c, s') && MainInv(c, s')
    requires forall n :: 0 <= n < |s.txs| ==> TxInv(c, s.txs[n], s'.grants[c.users + n], s.epoch)
    ensures Inv(c, s')
  {
    forall q | 0 <= q < c.peers ensures LoopInv(c, s', q) {
      assert LoopInv(c, s, q);
    }
    forall k | 0 <= k < |s'.ledger| ensures EntryInv(c, s', s'.ledger[k]) {
      assert EntryInv(c, s, s.ledger[k]);
    }
  }

  /** A grant that has been requested, and whether it is taken, may be seen as before. */
  ghost predicate GrantAhead(g: Grant, g': Grant, epoch: nat) {
    && !g.pc.Unsent? && !g'.pc.Unsent? && (Replied(g'.pc) <==> Replied(g.pc))
    && (g'.signed == g.signed || (!g.pc.Replying? && !Replied(g.pc) && g'.signed == epoch))
    && (g'.pc.Replying? && !g.pc.Replying? ==> g'.signed == epoch)
  }

  lemma GrantTx(c: Config, t: Tx, g: Grant, g': Grant, epoch: nat)
    requires TxInv(c, t, g, epoch) && (g' == g || GrantAhead(g, g', epoch))
    ensures TxInv(c, t, g', epoch)
  {
  }

  lemma GrantMain(c: Config, s: State, s': State, r: nat)
    requires Shape(c, s) && Shape(c, s') && MainInv(c, s) && r < |s.grants|
    requires s'.main == s.main && s'.txs == s.txs && s'.loops == s.loops && s'.grants == s.grants[r := s'.grants[r]]
    requires GrantAhead(s.grants[r], s'.grants[r], s.epoch) && (s'.authority.Exited? <==> s.authority.Exited?)
    ensures MainInv(c, s')
  {
    StartedStays(c, s, s');
  }

  /** One grant moves on between its request and its reply. */
  lemma GrantMoves(c: Config, s: State, s': State, r: nat)
    requires Inv(c, s) && s.crash == NoCrash && Shape(c, s') && r < |s.grants|
    requires s' == s.(authority := s'.authority, grants := s.grants[r := s'.grants[r]],
                      grantPermits := s'.grantPermits, events := s'.events)
    requires GrantAhead(s.grants[r], s'.grants[r], s.epoch)
    requires AuthorityInv(c, s') && (s'.authority.Exited? <==> s.authority.Exited?)
    ensures Inv(c, s')
  {
    forall n | 0 <= n < |s.txs| ensures TxInv(c, s.txs[n], s'.grants[c.users + n], s.epoch) {
      GrantTx(c, s.txs[n], s.grants[c.users + n], s'.grants[c.users + n], s.epoch);
    }
    GrantMain(c, s, s', r);
    GrantFrame(c, s, s');
  }

  lemma AuthorityKeeps(c: Config, s: State)
    requires Inv(c, s) && s.crash == NoCrash && AuthorityCan(c, s)
    ensures Inv(c, AuthorityStep(c, s))
  {
    GrantMoves(c, s, AuthorityStep(c, s), s.authority.job);
  }

  lemma GranterKeeps(c: Config, s: State, r: nat)
    requires Inv(c, s) && s.crash == NoCrash && GranterCan(c, s, r)
    ensures Inv(c, GranterStep(c, s, r))
  {
    GrantMoves(c, s, GranterStep(c, s, r), r);
  }

  lemma TickTx(c: Config, t: Tx, g: Grant, epoch: nat)
    requires TxInv(c, t, g, epoch)
    ensures TxInv(c, t, g, epoch + 1)
  {
  }

  lemma TickKeeps(c: Config, s: State)
    requires Inv(c, s) && s.crash == NoCrash
    ensures Inv(c, s.(epoch := s.epoch + 1))
  {
    var s' := s.(epoch := s.epoch + 1);
    forall n | 0 <= n < |s.txs| ensures TxInv(c, s'.txs[n], s'.grants[c.users + n], s'.epoch) {
      TickTx(c, s.txs[n], s.grants[c.users + n], s.epoch);
    }
    forall q | 0 <= q < c.peers ensures LoopInv(c, s', q) {
      assert LoopInv(c, s, q);
    }
    forall k | 0 <= k < |s'.ledger| ensures EntryInv(c, s', s'.ledger[k]) {
      assert EntryInv(c, s, s.ledger[k]);
    }
    StartedStays(c, s, s');
  }

  // ---- the main goroutine

  lemma MainLaunches(c: Config, s: State)
    requires Inv(c, s) && s.crash == NoCrash && MainCan(c, s)
    requires s.main.AwaitingHandle? || (s.main.Launching? && s.main.next < c.users)
    ensures Inv(c, MainStep(c, s))
  {
    var s' := MainStep(c, s);
    LaunchMain(c, s);
    forall q | 0 <= q < c.peers ensures LoopInv(c, s', q) {
      assert LoopInv(c, s, q);
    }
    forall k | 0 <= k < |s'.ledger| ensures EntryInv(c, s', s'.ledger[k]) {
      assert EntryInv(c, s, s.ledger[k]);
    }
  }

  lemma LaunchMain(c: Config, s: State)
    requires Inv(c, s) && s.crash == NoCrash && MainCan(c, s)
    requires s.main.AwaitingHandle? || (s.main.Launching? && s.main.next < c.users)
    ensures Shape(c, MainStep(c, s)) && MainInv(c, MainStep(c, s)) && AuthorityInv(c, MainStep(c, s))
  {
    var s' := MainStep(c, s);
    StartedStays(c, s, s');
  }

  lemma FinishMain(c: Config, s: State)
    requires Shape(c, s) && MainInv(c, s) && MainCan(c, s)
    requires !s.main.AwaitingHandle? && !(s.main.Launching? && s.main.next < c.users)
    requires |s.ledger| <= |s.txs|
    ensures Shape(c, MainStep(c, s)) && MainInv(c, MainStep(c, s))
  {
    StartedStays(c, s, MainStep(c, s));
  }

  lemma FinishAuthority(c: Config, s: State)
    requires Shape(c, s) && AuthorityInv(c, s) && MainCan(c, s)
    requires !s.main.AwaitingHandle? && !(s.main.Launching? && s.main.next < c.users)
    ensures Shape(c, MainStep(c, s)) && AuthorityInv(c, MainStep(c, s))
  {
  }

  lemma FinishLoops(c: Config, s: State)
    requires Shape(c, s) && LoopsInv(c, s) && MainCan(c, s)
    requires !s.main.AwaitingHandle? && !(s.main.Launching? && s.main.next < c.users)
    ensures Shape(c, MainStep(c, s)) && LoopsInv(c, MainStep(c, s))
  {
    var s' := MainStep(c, s);
    forall q | 0 <= q < c.peers ensures LoopInv(c, s', q) {
      assert LoopInv(c, s, q);
    }
    forall n | 0 <= n < |s'.txs| ensures TxLoops(c, n, s'.txs[n], s'.loops) {
      assert TxLoops(c, n, s.txs[n], s.loops);
    }
  }

  lemma MainFinishes(c: Config, s: State)
    requires Inv(c, s) && s.crash == NoCrash && MainCan(c, s)
    requires !s.main.AwaitingHandle? && !(s.main.Launching? && s.main.next < c.users)
    requires |s.ledger| <= |s.txs|
    ensures Inv(c, MainStep(c, s))
  {
    FinishMain(c, s);
    FinishAuthority(c, s);
    FinishLoops(c, s);
    var s' := MainStep(c, s);
    assert s'.txs == s.txs && s'.grants == s.grants && s'.epoch == s.epoch && s'.ledger == s.ledger;
    forall k | 0 <= k < |s'.ledger| ensures EntryInv(c, s', s'.ledger[k]) {
      assert EntryInv(c, s, s.ledger[k]);
    }
  }

  lemma MainKeeps(c: Config, s: State)
    requires Inv(c, s) && s.crash == NoCrash && MainCan(c, s)
    ensures Inv(c, MainStep(c, s))
  {
    if s.main.AwaitingHandle? || (s.main.Launching? && s.main.next < c.users) {
      MainLaunches(c, s);
    } else {
      LogBound(LedgerTxs(s.ledger), |s.txs|);
      MainFinishes(c, s);
    }
  }

  lemma GoroutineKeeps(c: Config, s: State, l: Label)
    requires Inv(c, s) && Enabled(c, s, l) && (l.Endorser? || l.Orderer? || l.Validator?)
    ensures Inv(c, Apply(c, s, l))
  {
    match l
    case Endorser(n, slot, hit) => EndorserKeeps(c, s, n, slot, hit);
    case Orderer(n, hit) => OrdererKeeps(c, s, n, hit);
    case Validator(n, p, hit) => ValidatorKeeps(c, s, n, p, hit);
  }

  lemma RevocationKeeps(c: Config, s: State, l: Label)
    requires Inv(c, s) && Enabled(c, s, l) && (l.Authority? || l.Granter? || l.Tick?)
    ensures Inv(c, Apply(c, s, l))
  {
    match l
    case Authority => AuthorityKeeps(c, s);
    case Granter(r) => GranterKeeps(c, s, r);
    case Tick => TickKeeps(c, s);
  }

  lemma ProcessKeeps(c: Config, s: State, l: Label)
    requires Inv(c, s) && Enabled(c, s, l) && (l.Main? || l.User? || l.Loop?)
    ensures Inv(c, Apply(c, s, l))
  {
    match l
    case Main => MainKeeps(c, s);
    case User(n) => UserKeeps(c, s, n);
    case Loop(p) => LoopKeeps(c, s, p);
  }

  /** The invariant is inductive. */
  lemma StepKeepsInv(c: Config, s: State, l: Label)
    requires Inv(c, s) && Enabled(c, s, l)
    ensures Inv(c, Apply(c, s, l))
  {
    match l
    case Main => ProcessKeeps(c, s, l);
    case User(_) => ProcessKeeps(c, s, l);
    case Loop(_) => ProcessKeeps(c, s, l);
    case Endorser(_, _, _) => GoroutineKeeps(c, s, l);
    case Orderer(_, _) => GoroutineKeeps(c, s, l);
    case Validator(_, _, _) => GoroutineKeeps(c, s, l);
    case _ => RevocationKeeps(c, s, l);
  }
}
