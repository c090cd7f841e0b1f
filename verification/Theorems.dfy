/** The main theorems about simulations: exact accounts, commit safety, draining, and the exact
    condition under which a simulation completes. */
module Theorems {
  import opened Sums
  import opened Events
  import opened Protocol
  import opened Accounts
  import opened Invariant
  import opened Budgets
  import opened Runs
  import opened Guarantees
  import opened Epochs
  import G = Progress

  /** Throughout a run, what was recorded and what is still owed make up the budget. */
  lemma RunningAccounts(c: Config, run: Run, e: Event)
    requires Valid(c) && Feasible(c, run) && After(c, run).crash == NoCrash
    ensures After(c, run).events[e] + Total(c, Count(e), After(c, run)) + SpentBy(c, run, Count(e)) == Budget(c, e)
  {
    RunBalance(c, run, Count(e));
    InitialCount(c, e);
  }

  /** Exact accounting: every finished run, under every interleaving, has recorded the same events;
      only proof verifications depend on how many checks hit a cache. */
  lemma FinalAccounts(c: Config, run: Run, e: Event)
    requires Valid(c) && Feasible(c, run) && After(c, run).crash == NoCrash && After(c, run).main.Finished?
    ensures After(c, run).events[e] == Budget(c, e) - if e == Crypto(CredVerify) then Hits(c, run) else 0
  {
    RunInv(c, run);
    RunningAccounts(c, run, e);
    FinishedOwesNothing(c, After(c, run), e);
  }

  function NetworkEvents(events: multiset<Event>): nat {
    events[Transfer(Nonce)] + events[Transfer(CredRequest)] + events[Transfer(Credentials)]
    + events[Transfer(TransactionProposal)] + events[Transfer(Endorsement)] + events[Transfer(Transaction)]
    + events[Transfer(NonRevocationRequest)] + events[Transfer(NonRevocationHandle)]
  }

  function TransferBudget(c: Config, o: Object): nat {
    var n := c.users * c.transactions;
    match o
    case TransactionProposal => n * c.endorsements
    case Endorsement => n * c.endorsements
    case Transaction => n * c.peers
    case NonRevocationRequest => if c.revoke then c.users + n else 0
    case NonRevocationHandle => if c.revoke then c.users + n else 0
    case _ => c.orgs + c.users
  }

  lemma TransferBudgetIs(c: Config, o: Object)
    ensures Budget(c, Transfer(o)) == TransferBudget(c, o)
  {
    var n := c.users * c.transactions;
    assert n * 0 == 0 && n * 1 == n;
    match o {
      case TransactionProposal =>
      case Endorsement =>
      case Transaction =>
      case NonRevocationRequest =>
      case NonRevocationHandle =>
      case _ =>
    }
  }

  lemma TransfersOf(c: Config, run: Run, o: Object)
    requires Valid(c) && Feasible(c, run) && After(c, run).crash == NoCrash && After(c, run).main.Finished?
    ensures After(c, run).events[Transfer(o)] == TransferBudget(c, o)
  {
    FinalAccounts(c, run, Transfer(o));
    TransferBudgetIs(c, o);
  }

  lemma SumOfProducts(n: nat, a: nat, b: nat)
    ensures n * (2 * a + b) == n * a + n * a + n * b
  {
  }

  function TransferTotal(c: Config): nat {
    var n := c.users * c.transactions;
    3 * c.orgs + 3 * c.users + n * (2 * c.endorsements + c.peers) + if c.revoke then 2 * (c.users + n) else 0
  }

  /** A finished simulation has recorded exactly this many transfers. */
  lemma NetworkConservation(c: Config, run: Run)
    requires Valid(c) && Feasible(c, run) && After(c, run).crash == NoCrash && After(c, run).main.Finished?
    ensures NetworkEvents(After(c, run).events) == TransferTotal(c)
  {
    TransfersOf(c, run, Nonce);
    TransfersOf(c, run, CredRequest);
    TransfersOf(c, run, Credentials);
    TransfersOf(c, run, TransactionProposal);
    TransfersOf(c, run, Endorsement);
    TransfersOf(c, run, Transaction);
    TransfersOf(c, run, NonRevocationRequest);
    TransfersOf(c, run, NonRevocationHandle);
    SumOfProducts(c.users * c.transactions, c.endorsements, c.peers);
  }

  /** Commit safety, in every reachable state. */
  lemma CommitSafety(c: Config, run: Run, k: nat)
    requires Valid(c) && Feasible(c, run) && k < |After(c, run).ledger|
    ensures Shape(c, After(c, run)) && Committed(c, After(c, run), After(c, run).ledger[k])
  {
    RunInv(c, run);
    EntryCommitted(c, After(c, run), k);
  }

  /** Each transaction is recorded at most once, and a finished simulation has recorded all of them. */
  lemma LedgerIsComplete(c: Config, run: Run)
    requires Valid(c) && Feasible(c, run)
    ensures DistinctBelow(LedgerTxs(After(c, run).ledger), c.users * c.transactions)
    ensures Joined(After(c, run).main) ==> |After(c, run).ledger| == c.users * c.transactions
  {
    RunInv(c, run);
    LogBound(LedgerTxs(After(c, run).ledger), c.users * c.transactions);
  }

  /** The only panic a run can meet is a handle that is newer than the epoch claimed for it; in
      particular no validator ever sees too few endorsements. */
  lemma OnlyStaleHandlesPanic(c: Config, run: Run)
    requires Valid(c) && Feasible(c, run) && After(c, run).crash != NoCrash
    ensures c.revoke && After(c, run).crash.StaleHandle?
  {
    RunInv(c, run);
  }

  /** Permits are neither lost nor invented. */
  lemma PermitConservation(c: Config, run: Run, p: nat)
    requires Valid(c) && Feasible(c, run) && After(c, run).crash == NoCrash && p < c.peers
    ensures Shape(c, After(c, run))
    ensures var s := After(c, run);
      && s.endorsePermits[p] + Total(c, EndorsePermit(p), s) == c.concurrentEndorsements
      && s.validatePermits[p] + Total(c, ValidatePermit(p), s) == c.concurrentValidations
      && s.grantPermits + Total(c, GrantPermit, s) == c.concurrentRevocations
  {
    RunFunded(c, run);
    var s := After(c, run);
    assert Balance(c, EndorsePermit(p), s) == c.concurrentEndorsements;
    assert Balance(c, ValidatePermit(p), s) == c.concurrentValidations;
  }

  /** Once all users have joined nothing is in flight, and the shutdown never waits. */
  lemma ShutdownNeverBlocks(c: Config, run: Run)
    requires Valid(c) && Feasible(c, run) && Joined(After(c, run).main)
    ensures Shape(c, After(c, run)) && Drained(c, After(c, run))
    ensures !After(c, run).main.Finished? ==> MainCan(c, After(c, run))
  {
    RunInv(c, run);
    JoinedIsDrained(c, After(c, run));
  }

  // ---- epochs

  lemma TxOfState(c: Config, s: State, n: nat)
    requires Inv(c, s) && n < |s.txs|
    ensures c.users + n < |s.grants| && TxInv(c, s.txs[n], s.grants[c.users + n], s.epoch)
  {
  }

  /** The invariant of one transaction, in every reachable state. */
  lemma TxOf(c: Config, run: Run, n: nat)
    requires Valid(c) && Feasible(c, run) && n < |After(c, run).txs|
    ensures var s := After(c, run);
      c.users + n < |s.grants| && TxInv(c, s.txs[n], s.grants[c.users + n], s.epoch)
  {
    RunInv(c, run);
    TxOfState(c, After(c, run), n);
  }

  lemma TxSandwich(c: Config, t: Tx, g: Grant, epoch: nat)
    requires TxInv(c, t, g, epoch) && c.revoke
    ensures if t.user.Requesting? || t.user.Awaiting? then t.handle <= t.epoch <= epoch
            else t.epoch <= t.handle <= epoch
  {
  }

  /** The epoch a user works with, the epoch signed in its handle, and the epoch of the network.  Only
      while a user waits for its new handle is the old handle the older of the two. */
  lemma EpochSandwich(c: Config, run: Run, n: nat)
    requires Valid(c) && Feasible(c, run) && c.revoke && n < |After(c, run).txs|
    ensures var s := After(c, run);
      var t := s.txs[n];
      && (if t.user.Requesting? || t.user.Awaiting? then t.handle <= t.epoch <= s.epoch
          else t.epoch <= t.handle <= s.epoch)
      && s.epoch == 1 + Ticks(run)
  {
    var s := After(c, run);
    RunEpoch(c, run);
    TxOf(c, run, n);
    TxSandwich(c, s.txs[n], s.grants[c.users + n], s.epoch);
  }

  lemma {:induction false} TicksMonotone(run: Run, a: nat, b: nat)
    requires a <= b <= |run|
    ensures Ticks(run[..a]) <= Ticks(run[..b])
    ensures Ticks(run[..b]) - Ticks(run[..a]) == Ticks(run[a..b])
  {
    if a < b {
      TicksMonotone(run, a, b - 1);
      assert Front(run[..b]) == run[..b - 1] && Last(run[..b]) == run[b - 1];
      assert Front(run[a..b]) == run[a..b - 1] && Last(run[a..b]) == run[b - 1];
    }
  }

  /** Transaction n read its epoch at step a, and its handle was signed at step b. */
  ghost predicate RefreshWindow(c: Config, run: Run, n: nat, a: nat, b: nat) {
    ReadsAt(c, run, a, n) && SignsAt(c, run, b, c.users + n)
  }

  /** What a refreshed transaction has in hand. */
  lemma HandleIsSigned(c: Config, run: Run, n: nat)
    requires Valid(c) && Feasible(c, run) && c.revoke && n < |After(c, run).txs|
    requires Refreshed(After(c, run).txs[n].user)
    ensures var s, r := After(c, run), c.users + n;
      r < |s.grants| && Signed(s.grants[r]) && s.txs[n].handle == s.grants[r].signed
  {
    TxOf(c, run, n);
  }

  /** The handle was signed after the epoch was read, and it is ahead by the ticks in between. */
  lemma HandleLeadsByTicks(c: Config, run: Run, n: nat, a: nat, b: nat)
    requires Valid(c) && Feasible(c, run) && c.revoke && n < |After(c, run).txs|
    requires Refreshed(After(c, run).txs[n].user) && RefreshWindow(c, run, n, a, b)
    ensures a < b
    ensures After(c, run).txs[n].handle - After(c, run).txs[n].epoch == Ticks(run[a..b])
  {
    HandleIsSigned(c, run, n);
    ReadStays(c, run, n, a);
    SignStays(c, run, c.users + n, b);
    WindowOrder(c, run, n, a, b);
    TicksMonotone(run, a, b);
  }

  lemma UnsignedAtRead(c: Config, run: Run, n: nat, a: nat)
    requires Valid(c) && c.revoke && ReadsAt(c, run, a, n)
    ensures c.users + n < |After(c, run[..a]).grants| && !Signed(After(c, run[..a]).grants[c.users + n])
  {
    TxOf(c, run[..a], n);
  }

  lemma WindowOrder(c: Config, run: Run, n: nat, a: nat, b: nat)
    requires Valid(c) && c.revoke && RefreshWindow(c, run, n, a, b)
    ensures a < b
  {
    UnsignedAtRead(c, run, n, a);
    if b < a {
      assert run[..a][..b] == run[..b];
      SignStays(c, run[..a], c.users + n, b);
    }
  }

  /** Every refreshed transaction has such a window. */
  lemma WindowExists(c: Config, run: Run, n: nat) returns (a: nat, b: nat)
    requires Valid(c) && Feasible(c, run) && c.revoke && n < |After(c, run).txs|
    requires Refreshed(After(c, run).txs[n].user)
    ensures RefreshWindow(c, run, n, a, b)
  {
    HandleIsSigned(c, run, n);
    a := ReadMoment(c, run, n);
    b := SignMoment(c, run, c.users + n);
  }

  // ---- completion

  /** No process but the clock can move. */
  ghost predicate Stuck(c: Config, s: State)
    requires Shape(c, s)
  {
    forall l :: l != Tick ==> !Enabled(c, s, l)
  }

  /** Some transaction had the clock tick between reading the epoch and the signing of its handle. */
  ghost predicate TickedWindow(c: Config, run: Run) {
    exists n: nat, a: nat, b: nat :: a < b <= |run| && RefreshWindow(c, run, n, a, b) && Ticks(run[a..b]) > 0
  }

  lemma PanicMeansTick(c: Config, run: Run)
    requires Valid(c) && Feasible(c, run) && After(c, run).crash != NoCrash
    ensures c.revoke && TickedWindow(c, run)
  {
    RunInv(c, run);
    var n := After(c, run).crash.tx;
    var a, b := WindowExists(c, run, n);
    HandleLeadsByTicks(c, run, n, a, b);
  }

  lemma JoinedHandlesMatch(c: Config, run: Run, n: nat)
    requires Valid(c) && Feasible(c, run) && c.revoke && Joined(After(c, run).main) && n < |After(c, run).txs|
    ensures var t := After(c, run).txs[n]; Refreshed(t.user) && t.handle == t.epoch
  {
    var s := After(c, run);
    RunInv(c, run);
    DoneIsComplete(c, s.txs[n], s.grants[c.users + n], s.epoch);
  }

  /** The transactions are there from the start. */
  lemma Population(c: Config, run: Run)
    requires Valid(c) && Feasible(c, run)
    ensures |After(c, run).txs| == c.users * c.transactions
  {
    RunInv(c, run);
  }

  lemma WindowIsTickFree(c: Config, run: Run, n: nat, a: nat, b: nat)
    requires Valid(c) && Feasible(c, run) && c.revoke && Joined(After(c, run).main)
    requires RefreshWindow(c, run, n, a, b)
    ensures a < b && Ticks(run[a..b]) == 0
  {
    Population(c, run);
    Population(c, run[..a]);
    JoinedHandlesMatch(c, run, n);
    HandleLeadsByTicks(c, run, n, a, b);
  }

  lemma FinishMeansNoTick(c: Config, run: Run)
    requires Valid(c) && Feasible(c, run) && c.revoke && Joined(After(c, run).main)
    ensures !TickedWindow(c, run)
  {
    forall n: nat, a: nat, b: nat | a < b <= |run| && RefreshWindow(c, run, n, a, b) ensures Ticks(run[a..b]) == 0 {
      WindowIsTickFree(c, run, n, a, b);
    }
  }

  /** A run that can go no further has finished exactly when no tick fell between a transaction's
      reading of the epoch and the signing of its handle; otherwise a validator has panicked.
      Without revocation it has always finished. */
  lemma CompletesIff(c: Config, run: Run)
    requires Valid(c) && Feasible(c, run) && Shape(c, After(c, run)) && Stuck(c, After(c, run))
    ensures After(c, run).main.Finished? <==> !(c.revoke && TickedWindow(c, run))
    ensures After(c, run).main.Finished? <==> After(c, run).crash == NoCrash
  {
    var s := After(c, run);
    RunInv(c, run);
    if s.crash == NoCrash {
      RunFunded(c, run);
      if !s.main.Finished? {
        var l := G.SomeProcessMoves(c, s);
      }
      if c.revoke {
        FinishMeansNoTick(c, run);
      }
    } else {
      PanicMeansTick(c, run);
      if s.main.Finished? {
        FinishMeansNoTick(c, run);
      }
    }
  }

  lemma StuckTx(c: Config, s: State, n: nat)
    requires Shape(c, s) && s.crash == NoCrash && Stuck(c, s) && n < |s.txs|
    requires Complete(c, s.txs[n]) && s.txs[n].user.Done?
    ensures TxWeight(c, Steps, n, s.txs[n]) == 0
  {
    var t := s.txs[n];
    forall i | 0 <= i < c.endorsements ensures t.endorse[i].Gone? {
      assert !Enabled(c, s, Label.Endorser(n, i, false));
    }
    forall p | 0 <= p < c.peers ensures t.validate[p].Gone? {
      assert !Enabled(c, s, Label.Validator(n, p, false));
    }
    SumConst(EndorseWeights(c, Steps, n, t.endorse), 0);
    SumConst(ValidateWeights(c, Steps, n, t.validate), 0);
  }

  lemma StuckGrants(c: Config, s: State)
    requires Shape(c, s) && s.crash == NoCrash && Stuck(c, s)
    requires c.revoke ==> forall r :: 0 <= r < |s.grants| ==> Replied(s.grants[r].pc)
    ensures Sum(GrantWeights(c, Steps, s.grants)) == 0
  {
    forall r | 0 <= r < |s.grants| ensures GrantWeight(c, Steps, s.grants[r].pc) == 0 {
      assert !Enabled(c, s, Granter(r));
    }
    SumConst(GrantWeights(c, Steps, s.grants), 0);
  }

  lemma StuckOwesNoSteps(c: Config, s: State)
    requires Inv(c, s) && Stuck(c, s) && s.main.Finished? && s.crash == NoCrash
    ensures Total(c, Steps, s) == 0
  {
    JoinedIsDrained(c, s);
    forall n | 0 <= n < |s.txs| ensures TxWeight(c, Steps, n, s.txs[n]) == 0 {
      StuckTx(c, s, n);
    }
    SumConst(TxWeights(c, Steps, s.txs), 0);
    StuckGrants(c, s);
  }

  /** Every run that ends without panic has exactly the same number of steps. */
  lemma ExactLength(c: Config, run: Run)
    requires Valid(c) && Feasible(c, run) && Shape(c, After(c, run))
    requires Stuck(c, After(c, run)) && After(c, run).crash == NoCrash
    ensures Moves(run) == StepBudget(c)
  {
    CompletesIff(c, run);
    RunInv(c, run);
    StuckOwesNoSteps(c, After(c, run));
    RunBalance(c, run, Steps);
    InitialSteps(c);
  }
}
