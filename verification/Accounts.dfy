/** What every process still has to contribute: steps, recorded events and held permits.  One weight
    function per process makes termination, exact accounting and permit conservation instances of the
    same law (see StepBalance in module Conservation). */
module Accounts {
  import opened Sums
  import opened Events
  import opened Protocol

  datatype Weight =
    | Steps
    | Count(event: Event)
    | EndorsePermit(peer: nat)
    | ValidatePermit(peer: nat)
    | GrantPermit

  predicate Holds(pc: JobPc) {
    pc.Working? || pc.Replying? || pc.Releasing?
  }

  predicate InLoop(pc: JobPc) {
    pc.Received? || pc.Acquiring?
  }

  predicate Untransferred(pc: JobPc) {
    pc.Unsent? || pc.Received?
  }

  predicate Replied(pc: JobPc) {
    pc.Releasing? || pc.Gone?
  }

  /** The work numbered `at` is still ahead. */
  predicate Owes(pc: JobPc, at: nat) {
    pc.Unsent? || InLoop(pc) || (pc.Working? && pc.at <= at)
  }

  /** Steps left for a goroutine with `work` pieces of work, from its arrival in the loop. */
  function JobSteps(pc: JobPc, work: nat): int {
    match pc
    case Unsent => work + 4
    case Received => work + 4
    case Acquiring => work + 3
    case Working(at) => work + 2 - at
    case Replying => 2
    case Releasing => 1
    case Gone => 0
  }

  function EndorseCount(e: Event, pc: JobPc): nat {
    match e
    case Transfer(TransactionProposal) => One(Untransferred(pc))
    case Crypto(VerifyNym) => One(Owes(pc, 0))
    case Crypto(Hash) => One(Owes(pc, 1)) + One(Owes(pc, 2))
    case Crypto(CredVerify) => One(Owes(pc, 1)) + One(Owes(pc, 2))
    case Crypto(SignSchnorr) => One(Owes(pc, 3))
    case Transfer(Endorsement) => One(Owes(pc, 3))
    case _ => 0
  }

  function EndorseWeight(c: Config, w: Weight, n: nat, slot: nat, pc: JobPc): int
    requires c.peers >= 1
  {
    match w
    case Steps => JobSteps(pc, 4)
    case Count(e) => EndorseCount(e, pc)
    case EndorsePermit(p) => One(EndorserAt(c, n, slot) == p && Holds(pc))
    case _ => 0
  }

  function OrderWeight(c: Config, w: Weight, pc: JobPc): int {
    match w
    case Steps =>
      (match pc
       case Unsent => c.peers + 2
       case Received => c.peers + 2
       case Working(at) => c.peers + 1 - at
       case _ => 0)
    case Count(e) =>
      (match e
       case Transfer(Transaction) => One(Untransferred(pc))
       case Crypto(Hash) => One(Owes(pc, 0))
       case Crypto(CredVerify) => One(Owes(pc, 0))
       case _ => 0)
    case _ => 0
  }

  function ValidateCount(c: Config, n: nat, p: nat, e: Event, pc: JobPc): nat
    requires c.peers >= 1
  {
    match e
    case Transfer(Transaction) => One(Untransferred(pc) && OrdererOf(c, n) != p)
    case Crypto(VerifyNym) => One(Owes(pc, 0))
    case Crypto(VerifySchnorr) => One(Owes(pc, 1))
    case Crypto(Hash) => One(Owes(pc, 2))
    case Crypto(CredVerify) => One(Owes(pc, 2))
    case Crypto(AuditVerify) => One(c.audit && Owes(pc, 3))
    case Crypto(NonRevokeVerify) => One(c.revoke && Owes(pc, 4))
    case _ => 0
  }

  function ValidateWeight(c: Config, w: Weight, n: nat, p: nat, pc: JobPc): int
    requires c.peers >= 1
  {
    match w
    case Steps => JobSteps(pc, 5)
    case Count(e) => ValidateCount(c, n, p, e, pc)
    case ValidatePermit(q) => One(p == q && Holds(pc))
    case _ => 0
  }

  function GrantWeight(c: Config, w: Weight, pc: JobPc): int {
    if !c.revoke then 0 else
    match w
    case Steps =>
      (match pc
       case Unsent => 4
       case Received => 4
       case Acquiring => 3
       case Working(_) => 2
       case Replying => 1
       case Releasing => 1
       case Gone => 0)
    case Count(e) =>
      (match e
       case Transfer(NonRevocationRequest) => One(Untransferred(pc))
       case Crypto(NonRevokeGrant) => One(Owes(pc, 0))
       case Transfer(NonRevocationHandle) => One(Owes(pc, 0))
       case _ => 0)
    case GrantPermit => One(Holds(pc))
    case _ => 0
  }

  /** The transaction is not built yet. */
  predicate BuildAhead(u: UserPc) {
    !u.Ordering? && !u.Committing? && !u.Done?
  }

  function UserSteps(c: Config, u: UserPc, taken: nat): int {
    var refresh := if c.revoke then 3 else 0;
    var finish := c.peers + 3;
    match u
    case Waiting => 1 + 2 * c.endorsements + refresh + finish
    case Sending(slot) => 2 * c.endorsements - slot + refresh + finish
    case Collecting => c.endorsements - taken + refresh + finish
    case Reading => 3 + finish
    case Requesting => 2 + finish
    case Awaiting => 1 + finish
    case Building => finish
    case Ordering => finish - 1
    case Committing(got) => c.peers - got + 1
    case Done => 0
  }

  function UserCount(c: Config, u: UserPc, taken: nat, e: Event): int {
    match e
    case Crypto(Hash) => 2 * One(u.Waiting?) + One(BuildAhead(u))
    case Crypto(CredProve) => One(u.Waiting?)
    case Crypto(SignNym) => One(u.Waiting?) + One(BuildAhead(u))
    case Crypto(VerifySchnorr) => c.endorsements - taken
    case Crypto(NonRevokeProve) => One(c.revoke && BuildAhead(u))
    case Crypto(AuditEncrypt) => One(c.audit && BuildAhead(u))
    case Crypto(AuditProve) => One(c.audit && BuildAhead(u))
    case _ => 0
  }

  function UserWeight(c: Config, w: Weight, u: UserPc, taken: nat): int {
    match w
    case Steps => UserSteps(c, u, taken)
    case Count(e) => UserCount(c, u, taken, e)
    case _ => 0
  }

  function MainWeight(c: Config, w: Weight, main: MainPc, total: nat): int {
    var audit := if c.audit then total + 1 else 0;
    match w
    case Steps =>
      var finish := c.peers + 1;
      (match main
       case Launching(u) => (if c.revoke then 2 * (c.users - u) else c.users - u) + 1 + audit + finish
       case AwaitingHandle(u) => 2 * (c.users - u) - 1 + 1 + audit + finish
       case Auditing(i) => total - i + 1 + finish
       case Stopping(p) => finish - p
       case Finished => 0)
    case Count(e) =>
      if e != Crypto(AuditDecrypt) || !c.audit then 0 else
      (match main
       case Auditing(i) => total - i
       case Launching(_) => total
       case AwaitingHandle(_) => total
       case _ => 0)
    case _ => 0
  }

  function EndorseWeights(c: Config, w: Weight, n: nat, pcs: seq<JobPc>): (ws: seq<int>)
    requires c.peers >= 1
    ensures |ws| == |pcs| && forall i :: 0 <= i < |ws| ==> ws[i] == EndorseWeight(c, w, n, i, pcs[i])
  {
    seq(|pcs|, i requires 0 <= i < |pcs| => EndorseWeight(c, w, n, i, pcs[i]))
  }

  function EndorseTotal(c: Config, w: Weight, n: nat, pcs: seq<JobPc>): int
    requires c.peers >= 1
  {
    Sum(EndorseWeights(c, w, n, pcs))
  }

  function ValidateWeights(c: Config, w: Weight, n: nat, pcs: seq<JobPc>): (ws: seq<int>)
    requires c.peers >= 1
    ensures |ws| == |pcs| && forall i :: 0 <= i < |ws| ==> ws[i] == ValidateWeight(c, w, n, i, pcs[i])
  {
    seq(|pcs|, i requires 0 <= i < |pcs| => ValidateWeight(c, w, n, i, pcs[i]))
  }

  function ValidateTotal(c: Config, w: Weight, n: nat, pcs: seq<JobPc>): int
    requires c.peers >= 1
  {
    Sum(ValidateWeights(c, w, n, pcs))
  }

  function TxWeight(c: Config, w: Weight, n: nat, t: Tx): int
    requires c.peers >= 1
  {
    UserWeight(c, w, t.user, t.taken) + EndorseTotal(c, w, n, t.endorse)
    + OrderWeight(c, w, t.order) + ValidateTotal(c, w, n, t.validate)
  }

  function TxWeights(c: Config, w: Weight, txs: seq<Tx>): (ws: seq<int>)
    requires c.peers >= 1
    ensures |ws| == |txs| && forall n :: 0 <= n < |ws| ==> ws[n] == TxWeight(c, w, n, txs[n])
  {
    seq(|txs|, n requires 0 <= n < |txs| => TxWeight(c, w, n, txs[n]))
  }

  function TxTotal(c: Config, w: Weight, txs: seq<Tx>): int
    requires c.peers >= 1
  {
    Sum(TxWeights(c, w, txs))
  }

  function GrantWeights(c: Config, w: Weight, grants: seq<Grant>): (ws: seq<int>)
    ensures |ws| == |grants| && forall r :: 0 <= r < |ws| ==> ws[r] == GrantWeight(c, w, grants[r].pc)
  {
    seq(|grants|, r requires 0 <= r < |grants| => GrantWeight(c, w, grants[r].pc))
  }

  function GrantTotal(c: Config, w: Weight, grants: seq<Grant>): int {
    Sum(GrantWeights(c, w, grants))
  }

  function Total(c: Config, w: Weight, s: State): int
    requires c.peers >= 1
  {
    TxTotal(c, w, s.txs) + GrantTotal(c, w, s.grants) + MainWeight(c, w, s.main, |s.txs|)
  }

  /** What has already been paid in: events recorded, permits free. */
  function Stored(c: Config, w: Weight, s: State): int
    requires |s.endorsePermits| == |s.validatePermits| == c.peers
  {
    match w
    case Steps => 0
    case Count(e) => s.events[e]
    case EndorsePermit(p) => if p < c.peers then s.endorsePermits[p] else 0
    case ValidatePermit(p) => if p < c.peers then s.validatePermits[p] else 0
    case GrantPermit => s.grantPermits
  }

  function Balance(c: Config, w: Weight, s: State): int
    requires Shape(c, s)
  {
    Stored(c, w, s) + Total(c, w, s)
  }

  lemma EndorseSet(c: Config, w: Weight, n: nat, pcs: seq<JobPc>, i: nat, pc: JobPc)
    requires c.peers >= 1 && i < |pcs|
    ensures EndorseTotal(c, w, n, pcs[i := pc])
         == EndorseTotal(c, w, n, pcs) - EndorseWeight(c, w, n, i, pcs[i]) + EndorseWeight(c, w, n, i, pc)
  {
    var ws := EndorseWeights(c, w, n, pcs);
    assert EndorseWeights(c, w, n, pcs[i := pc]) == ws[i := EndorseWeight(c, w, n, i, pc)];
    SumUpdate(ws, i, EndorseWeight(c, w, n, i, pc));
  }

  lemma ValidateSet(c: Config, w: Weight, n: nat, pcs: seq<JobPc>, i: nat, pc: JobPc)
    requires c.peers >= 1 && i < |pcs|
    ensures ValidateTotal(c, w, n, pcs[i := pc])
         == ValidateTotal(c, w, n, pcs) - ValidateWeight(c, w, n, i, pcs[i]) + ValidateWeight(c, w, n, i, pc)
  {
    var ws := ValidateWeights(c, w, n, pcs);
    assert ValidateWeights(c, w, n, pcs[i := pc]) == ws[i := ValidateWeight(c, w, n, i, pc)];
    SumUpdate(ws, i, ValidateWeight(c, w, n, i, pc));
  }

  lemma TxSet(c: Config, w: Weight, txs: seq<Tx>, n: nat, t: Tx)
    requires c.peers >= 1 && n < |txs|
    ensures TxTotal(c, w, txs[n := t]) == TxTotal(c, w, txs) - TxWeight(c, w, n, txs[n]) + TxWeight(c, w, n, t)
  {
    var ws := TxWeights(c, w, txs);
    assert TxWeights(c, w, txs[n := t]) == ws[n := TxWeight(c, w, n, t)];
    SumUpdate(ws, n, TxWeight(c, w, n, t));
  }

  lemma GrantSet(c: Config, w: Weight, grants: seq<Grant>, r: nat, g: Grant)
    requires r < |grants|
    ensures GrantTotal(c, w, grants[r := g])
         == GrantTotal(c, w, grants) - GrantWeight(c, w, grants[r].pc) + GrantWeight(c, w, g.pc)
  {
    var ws := GrantWeights(c, w, grants);
    assert GrantWeights(c, w, grants[r := g]) == ws[r := GrantWeight(c, w, g.pc)];
    SumUpdate(ws, r, GrantWeight(c, w, g.pc));
  }
}
