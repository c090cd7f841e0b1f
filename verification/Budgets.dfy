/** What a whole simulation owes at its start, in closed form. */
module Budgets {
  import opened Sums
  import opened Events
  import opened Protocol
  import opened Accounts

  /** How often an event happens in one completed transaction. */
  function PerTransaction(c: Config, e: Event): nat {
    match e
    case Crypto(CredProve) => 1
    case Crypto(CredVerify) => 1 + 2 * c.endorsements + c.peers      // if no check hits a cache
    case Crypto(NonRevokeGrant) => One(c.revoke)
    case Crypto(NonRevokeProve) => One(c.revoke)
    case Crypto(NonRevokeVerify) => if c.revoke then c.peers else 0
    case Crypto(AuditEncrypt) => One(c.audit)
    case Crypto(AuditProve) => One(c.audit)
    case Crypto(AuditVerify) => if c.audit then c.peers else 0
    case Crypto(AuditDecrypt) => One(c.audit)
    case Crypto(Hash) => 4 + 2 * c.endorsements + c.peers
    case Crypto(SignNym) => 2
    case Crypto(VerifyNym) => c.endorsements + c.peers
    case Crypto(SignSchnorr) => c.endorsements
    case Crypto(VerifySchnorr) => c.endorsements + c.peers
    case Transfer(TransactionProposal) => c.endorsements
    case Transfer(Endorsement) => c.endorsements
    case Transfer(Transaction) => c.peers
    case Transfer(NonRevocationRequest) => One(c.revoke)
    case Transfer(NonRevocationHandle) => One(c.revoke)
    case _ => 0
  }

  /** How often an event happens outside the transactions: credentials and launch handles. */
  function Once(c: Config, e: Event): nat {
    match e
    case Crypto(CredDelegation) => c.orgs + c.users
    case Transfer(Nonce) => c.orgs + c.users
    case Transfer(CredRequest) => c.orgs + c.users
    case Transfer(Credentials) => c.orgs + c.users
    case Crypto(NonRevokeGrant) => if c.revoke then c.users else 0
    case Transfer(NonRevocationRequest) => if c.revoke then c.users else 0
    case Transfer(NonRevocationHandle) => if c.revoke then c.users else 0
    case _ => 0
  }

  function Budget(c: Config, e: Event): nat {
    c.users * c.transactions * PerTransaction(c, e) + Once(c, e)
  }

  /** Steps of the main goroutine and the launches. */
  function MainBudget(c: Config): nat {
    (if c.revoke then 6 * c.users else c.users) + 1
    + (if c.audit then c.users * c.transactions + 1 else 0) + c.peers + 1
  }

  /** Steps of a completed simulation: linear in users times transactions. */
  function StepBudget(c: Config): nat {
    c.users * c.transactions * (10 * c.endorsements + 11 * c.peers + 6 + if c.revoke then 7 else 0) + MainBudget(c)
  }

  /** What one transaction owes before it starts. */
  function TxBudget(c: Config, w: Weight): int {
    match w
    case Steps => 10 * c.endorsements + 11 * c.peers + 6 + if c.revoke then 3 else 0
    case Count(e) =>
      UserCount(c, Waiting, 0, e) + c.endorsements * EndorseCount(e, Unsent) + OrderWeight(c, w, Unsent)
      + (if e == Transfer(Transaction) then c.peers - 1
         else c.peers * (One(
           || e == Crypto(VerifyNym) || e == Crypto(VerifySchnorr) || e == Crypto(Hash) || e == Crypto(CredVerify)
           || (c.audit && e == Crypto(AuditVerify)) || (c.revoke && e == Crypto(NonRevokeVerify)))))
    case _ => 0
  }

  lemma InitialEndorse(c: Config, w: Weight, n: nat)
    requires c.peers >= 1
    ensures EndorseTotal(c, w, n, InitialTx(c).endorse)
      == match w case Steps => c.endorsements * 8 case Count(e) => c.endorsements * EndorseCount(e, Unsent) case _ => 0
  {
    var v := match w case Steps => 8 case Count(e) => EndorseCount(e, Unsent) case _ => 0;
    SumConst(EndorseWeights(c, w, n, InitialTx(c).endorse), v);
  }

  /** The orderer gets the transaction from the user, every other peer gets it from the orderer. */
  lemma {:induction false} OthersCount(ws: seq<int>, o: nat)
    requires forall p :: 0 <= p < |ws| ==> ws[p] == One(o != p)
    ensures Sum(ws) == |ws| - One(o < |ws|)
  {
    if ws != [] {
      var init := ws[..|ws| - 1];
      assert ws == init + [ws[|ws| - 1]];
      SumAppend(init, [ws[|ws| - 1]]);
      OthersCount(init, o);
    }
  }

  lemma InitialValidate(c: Config, w: Weight, n: nat)
    requires c.peers >= 1 && w != Count(Transfer(Transaction))
    ensures ValidateTotal(c, w, n, InitialTx(c).validate)
      == match w case Steps => c.peers * 9 case Count(e) => c.peers * ValidateCount(c, n, 0, e, Unsent) case _ => 0
  {
    var v := match w case Steps => 9 case Count(e) => ValidateCount(c, n, 0, e, Unsent) case _ => 0;
    SumConst(ValidateWeights(c, w, n, InitialTx(c).validate), v);
  }

  lemma InitialTxWeight(c: Config, w: Weight, n: nat)
    requires c.peers >= 1
    ensures TxWeight(c, w, n, InitialTx(c)) == TxBudget(c, w)
  {
    InitialEndorse(c, w, n);
    if w == Count(Transfer(Transaction)) {
      OthersCount(ValidateWeights(c, w, n, InitialTx(c).validate), OrdererOf(c, n));
    } else {
      InitialValidate(c, w, n);
    }
  }

  lemma InitialTxTotal(c: Config, w: Weight, txs: seq<Tx>)
    requires c.peers >= 1 && forall k :: 0 <= k < |txs| ==> txs[k] == InitialTx(c)
    ensures TxTotal(c, w, txs) == |txs| * TxBudget(c, w)
  {
    forall k | 0 <= k < |txs| ensures TxWeight(c, w, k, txs[k]) == TxBudget(c, w) {
      InitialTxWeight(c, w, k);
    }
    SumConst(TxWeights(c, w, txs), TxBudget(c, w));
  }

  /** What transactions, grants and the main goroutine owe at the start. */
  function InitialShares(c: Config, w: Weight): int {
    var n := c.users * c.transactions;
    n * TxBudget(c, w) + (c.users + n) * GrantWeight(c, w, Unsent) + MainWeight(c, w, Launching(0), n)
  }

  lemma InitialGrantTotal(c: Config, w: Weight, grants: seq<Grant>)
    requires forall r :: 0 <= r < |grants| ==> grants[r].pc.Unsent?
    ensures GrantTotal(c, w, grants) == |grants| * GrantWeight(c, w, Unsent)
  {
    SumConst(GrantWeights(c, w, grants), GrantWeight(c, w, Unsent));
  }

  lemma InitialTotal(c: Config, w: Weight)
    requires c.peers >= 1
    ensures Total(c, w, Init(c)) == InitialShares(c, w)
  {
    InitialTxTotal(c, w, Init(c).txs);
    InitialGrantTotal(c, w, Init(c).grants);
  }

  lemma InitialSteps(c: Config)
    requires c.peers >= 1
    ensures Total(c, Steps, Init(c)) == StepBudget(c)
  {
    InitialTotal(c, Steps);
    var n, x := c.users * c.transactions, 10 * c.endorsements + 11 * c.peers + 6;
    assert n * (x + 7) == n * (x + 3) + n * 4;
  }

  lemma InitialPermits(c: Config, w: Weight)
    requires c.peers >= 1 && !w.Steps? && !w.Count?
    ensures Total(c, w, Init(c)) == 0
  {
    InitialTotal(c, w);
  }

  lemma SetupCount(members: nat, e: Event)
    ensures SetupEvents(members)[e]
         == members * One(e == Crypto(CredDelegation) || e == Transfer(Nonce) || e == Transfer(CredRequest)
                          || e == Transfer(Credentials))
  {
  }

  /** A transaction's own share; its grant and its audit are counted elsewhere. */
  lemma TxShare(c: Config, e: Event)
    requires c.peers >= 1
    ensures PerTransaction(c, e) == TxBudget(c, Count(e)) + GrantWeight(c, Count(e), Unsent)
                                    + One(c.audit && e == Crypto(AuditDecrypt))
  {
    if e.Crypto? {
      match e.operation { case Hash => case CredVerify => case VerifySchnorr => case VerifyNym => case _ => }
    } else {
      match e.what { case Transaction => case _ => }
    }
  }

  lemma OnceShare(c: Config, e: Event)
    ensures Once(c, e) == SetupEvents(c.orgs + c.users)[e] + c.users * GrantWeight(c, Count(e), Unsent)
  {
    SetupCount(c.orgs + c.users, e);
    if GrantWeight(c, Count(e), Unsent) == 0 {} else {}
  }

  lemma Distribute(n: int, u: int, t: int, g: int, a: int)
    ensures n * t + (u + n) * g + n * a == n * (t + g + a) + u * g
  {
    assert n * (t + g + a) == n * t + n * g + n * a;
    assert (u + n) * g == u * g + n * g;
  }

  lemma MainShare(c: Config, e: Event, n: nat)
    ensures MainWeight(c, Count(e), Launching(0), n) == n * One(c.audit && e == Crypto(AuditDecrypt))
  {
  }

  lemma AddUp(n: int, u: int, t: int, g: int, a: int, total: int, once: int, setup: int, budget: int)
    requires total == n * t + (u + n) * g + n * a
    requires budget == n * (t + g + a) + once && once == setup + u * g
    ensures setup + total == budget
  {
    Distribute(n, u, t, g, a);
  }

  lemma BudgetShares(c: Config, e: Event)
    requires c.peers >= 1
    ensures var n, t, g := c.users * c.transactions, TxBudget(c, Count(e)), GrantWeight(c, Count(e), Unsent);
      Budget(c, e) == n * (t + g + One(c.audit && e == Crypto(AuditDecrypt))) + Once(c, e)
  {
    TxShare(c, e);
  }

  lemma SharesAddUp(c: Config, e: Event)
    requires c.peers >= 1
    ensures SetupEvents(c.orgs + c.users)[e] + InitialShares(c, Count(e)) == Budget(c, e)
  {
    var n, t, g := c.users * c.transactions, TxBudget(c, Count(e)), GrantWeight(c, Count(e), Unsent);
    var a := One(c.audit && e == Crypto(AuditDecrypt));
    MainShare(c, e, n);
    BudgetShares(c, e);
    OnceShare(c, e);
    AddUp(n, c.users, t, g, a, InitialShares(c, Count(e)), Once(c, e), SetupEvents(c.orgs + c.users)[e], Budget(c, e));
  }

  lemma InitialCount(c: Config, e: Event)
    requires c.peers >= 1
    ensures SetupEvents(c.orgs + c.users)[e] + Total(c, Count(e), Init(c)) == Budget(c, e)
  {
    InitialTotal(c, Count(e));
    SharesAddUp(c, e);
  }
}
