/** The inductive invariant of the transaction protocol. */
module Invariant {
  import opened Sums
  import opened Protocol
  import opened Accounts

  /** A done channel and the goroutines that send on it: each that has replied is logged once. */
  ghost predicate ReplyLog(pcs: seq<JobPc>, log: seq<nat>) {
    && DistinctBelow(log, |pcs|)
    && forall i :: 0 <= i < |pcs| ==> (Replied(pcs[i]) <==> i in log)
  }

  /** The first `sent` jobs exist, the others do not. */
  ghost predicate SentUpTo(pcs: seq<JobPc>, sent: nat, work: nat) {
    forall i :: 0 <= i < |pcs| ==> (pcs[i].Unsent? <==> i >= sent) && (pcs[i].Working? ==> pcs[i].at < work)
  }

  function SlotsSent(c: Config, u: UserPc): nat {
    match u
    case Waiting => 0
    case Sending(slot) => slot
    case _ => c.endorsements
  }

  function PeersReached(c: Config, order: JobPc): nat {
    match order
    case Working(at) => if at == 0 then 0 else at - 1
    case Gone => c.peers
    case _ => 0
  }

  predicate Collected(u: UserPc) {
    !u.Waiting? && !u.Sending? && !u.Collecting?
  }

  predicate Ordered(u: UserPc) {
    u.Committing? || u.Done?
  }

  /** The epoch has been read, if revocation is on. */
  predicate Refreshing(u: UserPc) {
    Collected(u) && !u.Reading?
  }

  /** The refreshed handle has arrived, if revocation is on. */
  predicate Refreshed(u: UserPc) {
    Refreshing(u) && !u.Requesting? && !u.Awaiting?
  }

  ghost predicate UserInv(c: Config, t: Tx) {
    && (t.user.Sending? ==> t.user.slot < c.endorsements)
    && (t.user.Waiting? || t.user.Sending? ==> t.taken == 0)
    && (t.user.Collecting? ==> t.taken < c.endorsements)
    && (Collected(t.user) ==> t.taken == c.endorsements)
    && (t.user.Committing? ==> t.user.got <= |t.commits| && t.user.got <= c.peers)
    && (t.user.Done? ==> |t.commits| == c.peers)
    && (t.user.Reading? || t.user.Requesting? || t.user.Awaiting? ==> c.revoke)
  }

  ghost predicate OrderInv(c: Config, t: Tx) {
    && (t.order.Unsent? <==> !Ordered(t.user))
    && (t.order.Working? ==> t.order.at <= c.peers)
    && !t.order.Acquiring? && !t.order.Replying? && !t.order.Releasing?
  }

  ghost predicate EpochInv(c: Config, t: Tx, g: Grant, epoch: nat) {
    && t.handle <= epoch
    && (!Refreshing(t.user) ==> t.epoch == 0)
    && (c.revoke ==>
        && (g.pc.Unsent? <==> !Refreshing(t.user) || t.user.Requesting?)
        && (Replied(g.pc) <==> Refreshed(t.user))
        && (Refreshing(t.user) ==> 1 <= t.epoch <= epoch)
        && (t.user.Requesting? || t.user.Awaiting? ==> t.handle <= t.epoch)
        && (g.pc.Replying? || Replied(g.pc) ==> t.epoch <= g.signed <= epoch)
        && (Refreshed(t.user) ==> t.handle == g.signed)
        && (forall p :: 0 <= p < |t.validate| && (t.validate[p].Replying? || Replied(t.validate[p])) ==>
              t.epoch == t.handle))
  }

  ghost predicate TxInv(c: Config, t: Tx, g: Grant, epoch: nat) {
    && TxShape(c, t)
    && UserInv(c, t)
    && OrderInv(c, t)
    && EpochInv(c, t, g, epoch)
    && SentUpTo(t.endorse, SlotsSent(c, t.user), 4)
    && SentUpTo(t.validate, PeersReached(c, t.order), 5)
    && ReplyLog(t.endorse, t.answers)
    && ReplyLog(t.validate, t.commits)
  }

  ghost predicate TxsInv(c: Config, s: State)
    requires Shape(c, s)
  {
    && s.epoch >= 1
    && forall n :: 0 <= n < |s.txs| ==> TxInv(c, s.txs[n], s.grants[c.users + n], s.epoch)
  }

  /** A job that has arrived but has no permit yet keeps its loop busy. */
  ghost predicate TxLoops(c: Config, n: nat, t: Tx, loops: seq<LoopPc<Job>>)
    requires TxShape(c, t) && |loops| == c.peers >= 1
  {
    && (forall i :: 0 <= i < c.endorsements && InLoop(t.endorse[i]) ==>
          loops[EndorserAt(c, n, i)] == Busy(EndorseJob(n, i)))
    && (InLoop(t.order) ==> loops[OrdererOf(c, n)] == Busy(OrderJob(n)))
    && (forall p :: 0 <= p < c.peers && InLoop(t.validate[p]) ==> loops[p] == Busy(ValidateJob(n, p)))
  }

  ghost predicate LoopInv(c: Config, s: State, p: nat)
    requires Shape(c, s) && p < c.peers
  {
    s.loops[p].Busy? ==>
      var j := s.loops[p].job;
      IsJob(c, s, j) && PeerOf(c, j) == p && InLoop(PcOf(c, s, j))
  }

  ghost predicate LoopsInv(c: Config, s: State)
    requires Shape(c, s)
  {
    && (forall p :: 0 <= p < c.peers ==> LoopInv(c, s, p))
    && (forall n :: 0 <= n < |s.txs| ==> TxLoops(c, n, s.txs[n], s.loops))
  }

  ghost predicate AuthorityInv(c: Config, s: State)
    requires Shape(c, s)
  {
    && (s.authority.Busy? ==> s.authority.job < |s.grants| && InLoop(s.grants[s.authority.job].pc))
    && (forall r :: 0 <= r < |s.grants| ==>
          && (InLoop(s.grants[r].pc) ==> s.authority == Busy(r))
          && (s.grants[r].pc.Working? ==> s.grants[r].pc.at == 0)
          && s.grants[r].signed <= s.epoch
          && (s.grants[r].pc.Replying? || Replied(s.grants[r].pc) ==> s.grants[r].signed >= 1)
          && (!c.revoke ==> s.grants[r].pc.Unsent?))
  }

  function Stopped(c: Config, main: MainPc): nat {
    match main
    case Stopping(p) => p
    case Finished => c.peers
    case _ => 0
  }

  predicate Joined(main: MainPc) {
    !main.Launching? && !main.AwaitingHandle?
  }

  /** A transaction starts after its user is launched and its predecessor is done. */
  ghost predicate Started(c: Config, s: State, n: nat)
    requires Shape(c, s) && n < |s.txs|
  {
    UserOf(c, n) < Launched(c, s.main) && (n % c.transactions == 0 || s.txs[n - 1].user.Done?)
  }

  ghost predicate MainInv(c: Config, s: State)
    requires Shape(c, s)
  {
    && Launched(c, s.main) <= c.users
    && (s.main.AwaitingHandle? ==>
          && c.revoke && s.main.next < c.users
          && !s.grants[s.main.next].pc.Unsent? && !Replied(s.grants[s.main.next].pc))
    && (forall u :: 0 <= u < c.users && c.revoke ==>
          && (u < Launched(c, s.main) ==> Replied(s.grants[u].pc))
          && (u > Launched(c, s.main) || s.main == Launching(u) ==> s.grants[u].pc.Unsent?))
    && (s.main.Auditing? ==> c.audit && s.main.next <= |s.txs|)
    && (s.main.Stopping? ==> s.main.next <= c.peers)
    && (forall p :: 0 <= p < c.peers ==> (s.loops[p].Exited? <==> p < Stopped(c, s.main)))
    && (s.authority.Exited? <==> s.main.Finished?)
    && (Joined(s.main) ==> AllDone(s))
    && (forall n {:trigger Started(c, s, n)} :: 0 <= n < |s.txs| && !s.txs[n].user.Waiting? ==> Started(c, s, n))
  }

  function LedgerTxs(ledger: seq<Entry>): (log: seq<nat>)
    ensures |log| == |ledger|
    ensures forall k :: 0 <= k < |log| ==> log[k] == ledger[k].tx
  {
    seq(|ledger|, k requires 0 <= k < |ledger| => ledger[k].tx)
  }

  ghost predicate EntryInv(c: Config, s: State, e: Entry)
    requires Shape(c, s)
  {
    e.tx < |s.txs| && var t := s.txs[e.tx];
    e.endorsers == EndorsersOf(c, e.tx, t.answers[..t.taken]) && e.epoch == t.epoch && e.handle == t.handle
  }

  ghost predicate LedgerInv(c: Config, s: State)
    requires Shape(c, s)
  {
    && DistinctBelow(LedgerTxs(s.ledger), |s.txs|)
    && (forall n :: 0 <= n < |s.txs| ==> (n in LedgerTxs(s.ledger) <==> s.txs[n].user.Done?))
    && (forall k :: 0 <= k < |s.ledger| ==> EntryInv(c, s, s.ledger[k]))
  }

  /** The only possible panic: some validator met a handle signed for a later epoch. */
  ghost predicate CrashInv(c: Config, s: State)
    requires Shape(c, s)
  {
    s.crash != NoCrash ==>
      && c.revoke && s.crash.StaleHandle? && s.crash.tx < |s.txs|
      && Ordered(s.txs[s.crash.tx].user) && s.txs[s.crash.tx].epoch < s.txs[s.crash.tx].handle
  }

  ghost predicate Inv(c: Config, s: State) {
    && Valid(c)
    && Shape(c, s)
    && TxsInv(c, s)
    && LoopsInv(c, s)
    && AuthorityInv(c, s)
    && MainInv(c, s)
    && LedgerInv(c, s)
    && CrashInv(c, s)
  }

  lemma InitShape(c: Config)
    requires Valid(c)
    ensures Shape(c, Init(c))
  {
    if |Init(c).txs| > 0 {
      assert c.users * c.transactions > 0;
      assert c.transactions > 0;
    }
  }

  lemma InitTxInv(c: Config)
    ensures TxInv(c, InitialTx(c), Grant(Unsent, 0), 1)
  {
  }

  lemma InitInv(c: Config)
    requires Valid(c)
    ensures Inv(c, Init(c))
  {
    InitShape(c);
    InitTxInv(c);
    assert LedgerTxs(Init(c).ledger) == [];
  }
}
