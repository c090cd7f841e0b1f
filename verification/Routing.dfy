/** Where a transaction goes: who is asked, at which peer it is ordered, and in which order the ledger lists what
    was recorded. */
module Routing {
  import opened Endorsers
  import opened Protocol
  import opened Invariant
  import opened Runs
  import opened Guarantees
  import opened Epochs

  // ---- which loop does what

  /** A loop that is busy with a transaction is that of a peer which the hash of the message picks: of the window
      that starts there if it is to endorse, and for an order with the suffix hashed as well. */
  lemma BusyByHash(c: Config, run: Run, p: nat)
    requires Valid(c) && Feasible(c, run) && p < |After(c, run).loops| && After(c, run).loops[p].Busy?
    ensures p < c.peers
    ensures match After(c, run).loops[p].job
      case EndorseJob(n, slot) => slot < c.endorsements && p == AskedOf(c, n)[slot]
      case OrderJob(n) => p == PeerByHash(c.sha3(c.message(n) + "-order"), c.peers)
      case ValidateJob(_, peer) => p == peer
  {
    RunInv(c, run);
    assert LoopInv(c, After(c, run), p);
  }

  // ---- the step that sends a transaction to its orderer

  /** Step k of the run hands transaction n to the loop of peer p for ordering. */
  ghost predicate OrdersAt(c: Config, run: Run, k: nat, n: nat, p: nat) {
    && k < |run| && run[k] == User(n) && Feasible(c, run[..k]) && Feasible(c, run[..k + 1])
    && var s, s' := After(c, run[..k]), After(c, run[..k + 1]);
    && n < |s.txs| && s.txs[n].user.Ordering?
    && p < |s.loops| == |s'.loops| && s.loops[p].Select? && s'.loops[p] == Busy(OrderJob(n))
  }

  /** Transaction n's order, if it is not sent yet, stays so. */
  ghost predicate OrderKept(s: State, s': State, n: nat) {
    n < |s.txs| == |s'.txs| && (s.txs[n].order.Unsent? ==> s'.txs[n].order.Unsent?)
  }

  lemma LoopKeepsOrder(c: Config, s: State, p: nat, n: nat)
    requires Shape(c, s) && LoopCan(c, s, p) && n < |s.txs|
    ensures OrderKept(s, LoopStep(c, s, p), n)
  {
  }

  lemma EndorserKeepsOrder(c: Config, s: State, m: nat, slot: nat, hit: bool, n: nat)
    requires Shape(c, s) && EndorserCan(c, s, m, slot) && n < |s.txs|
    ensures OrderKept(s, EndorserStep(c, s, m, slot, hit), n)
  {
  }

  lemma OrdererKeepsOrder(c: Config, s: State, m: nat, hit: bool, n: nat)
    requires Shape(c, s) && OrdererCan(c, s, m) && n < |s.txs|
    ensures OrderKept(s, OrdererStep(c, s, m, hit), n)
  {
  }

  lemma ValidatorKeepsOrder(c: Config, s: State, m: nat, p: nat, hit: bool, n: nat)
    requires Shape(c, s) && ValidatorCan(c, s, m, p) && n < |s.txs|
    ensures OrderKept(s, ValidatorStep(c, s, m, p, hit), n)
  {
  }

  lemma GoroutinesKeepOrder(c: Config, s: State, l: Label, n: nat)
    requires Shape(c, s) && Enabled(c, s, l) && n < |s.txs|
    requires l.Loop? || l.Endorser? || l.Orderer? || l.Validator?
    ensures OrderKept(s, Apply(c, s, l), n)
  {
    match l
    case Loop(p) => LoopKeepsOrder(c, s, p, n);
    case Endorser(m, slot, hit) => EndorserKeepsOrder(c, s, m, slot, hit, n);
    case Orderer(m, hit) => OrdererKeepsOrder(c, s, m, hit, n);
    case Validator(m, p, hit) => ValidatorKeepsOrder(c, s, m, p, hit, n);
  }

  lemma OthersKeepOrder(c: Config, s: State, l: Label, n: nat)
    requires Shape(c, s) && Enabled(c, s, l) && n < |s.txs| && l != User(n)
    ensures OrderKept(s, Apply(c, s, l), n)
  {
    if l.User? {
      UserKeepsOthers(c, s, l.tx, n);
    } else if l.Loop? || l.Endorser? || l.Orderer? || l.Validator? {
      GoroutinesKeepOrder(c, s, l, n);
    }
  }

  lemma OwnOrder(c: Config, s: State, n: nat)
    requires Shape(c, s) && UserCan(c, s, n) && s.txs[n].order.Unsent?
    ensures n < |UserStep(c, s, n).txs|
    ensures !UserStep(c, s, n).txs[n].order.Unsent? ==> s.txs[n].user.Ordering?
  {
    match s.txs[n].user { case _ => }
  }

  /** An order is sent by the transaction itself, when it gets there. */
  lemma OrderSentBy(c: Config, s: State, l: Label, n: nat)
    requires Shape(c, s) && Enabled(c, s, l) && n < |s.txs| && n < |Apply(c, s, l).txs|
    requires s.txs[n].order.Unsent? && !Apply(c, s, l).txs[n].order.Unsent?
    ensures l == User(n) && s.txs[n].user.Ordering?
  {
    if l == User(n) {
      OwnOrder(c, s, n);
    } else {
      OthersKeepOrder(c, s, l, n);
    }
  }

  /** This step sends transaction n to its orderer. */
  ghost predicate SendsOrder(s: State, l: Label, n: nat) {
    n < |s.txs| && l == User(n) && s.txs[n].user.Ordering?
  }

  ghost predicate SendsOrderAt(c: Config, run: Run, k: nat, n: nat) {
    k < |run| && Feasible(c, run[..k]) && SendsOrder(After(c, run[..k]), run[k], n)
  }

  /** Such a step hands it to the idle loop of the peer that the hash picks. */
  lemma OrderGoesThere(c: Config, s: State, n: nat)
    requires Shape(c, s) && Enabled(c, s, User(n)) && s.txs[n].user.Ordering?
    ensures var p, s' := PeerByHash(c.sha3(c.message(n) + "-order"), c.peers), UserStep(c, s, n);
      p < |s.loops| == |s'.loops| && s.loops[p].Select? && s'.loops[p] == Busy(OrderJob(n))
  {
  }

  lemma FeasiblePrefix(c: Config, run: Run, k: nat)
    requires Feasible(c, run) && k <= |run|
    ensures Feasible(c, run[..k])
    decreases |run|
  {
    if k < |run| {
      Prefixes(run);
      FeasiblePrefix(c, Front(run), k);
      assert Front(run)[..k] == run[..k];
    } else {
      assert run[..k] == run;
    }
  }

  lemma SentThere(c: Config, run: Run, k: nat, n: nat)
    requires Valid(c) && Feasible(c, run) && SendsOrderAt(c, run, k, n)
    ensures OrdersAt(c, run, k, n, PeerByHash(c.sha3(c.message(n) + "-order"), c.peers))
  {
    FeasiblePrefix(c, run, k + 1);
    assert Front(run[..k + 1]) == run[..k] && Last(run[..k + 1]) == User(n);
    RunInv(c, run[..k]);
    OrderGoesThere(c, After(c, run[..k]), n);
  }

  /** One more step of a run, seen from the order of transaction n. */
  lemma RunStepOrder(c: Config, run: Run, n: nat)
    requires Valid(c) && Feasible(c, run) && run != [] && n < |After(c, run).txs|
    requires !After(c, run).txs[n].order.Unsent?
    ensures Feasible(c, Front(run)) && n < |After(c, Front(run)).txs|
    ensures After(c, Front(run)).txs[n].order.Unsent? ==> SendsOrder(After(c, Front(run)), Last(run), n)
  {
    RunInv(c, Front(run));
    StepSize(c, After(c, Front(run)), Last(run));
    if After(c, Front(run)).txs[n].order.Unsent? {
      OrderSentBy(c, After(c, Front(run)), Last(run), n);
    }
  }

  lemma {:induction false} SendingMoment(c: Config, run: Run, n: nat) returns (k: nat)
    requires Valid(c) && Feasible(c, run) && n < |After(c, run).txs| && !After(c, run).txs[n].order.Unsent?
    ensures SendsOrderAt(c, run, k, n)
  {
    RunStepOrder(c, run, n);
    Prefixes(run);
    if SendsOrder(After(c, Front(run)), Last(run), n) {
      k := |run| - 1;
    } else {
      k := SendingMoment(c, Front(run), n);
    }
  }

  /** A transaction whose order is sent went to the peer picked by the hash of its message with the suffix. */
  lemma OrderMoment(c: Config, run: Run, n: nat) returns (k: nat)
    requires Valid(c) && Feasible(c, run) && n < |After(c, run).txs| && !After(c, run).txs[n].order.Unsent?
    ensures OrdersAt(c, run, k, n, PeerByHash(c.sha3(c.message(n) + "-order"), c.peers))
  {
    k := SendingMoment(c, run, n);
    SentThere(c, run, k, n);
  }

  /** No peer validates a transaction before it is fully endorsed, has been handed for ordering to the peer that the
      hash picks, and was sent on from there to this peer. */
  lemma ValidationFollowsOrder(c: Config, run: Run, n: nat, p: nat) returns (k: nat)
    requires Valid(c) && Feasible(c, run) && n < |After(c, run).txs| && p < c.peers
    requires p < |After(c, run).txs[n].validate| && !After(c, run).txs[n].validate[p].Unsent?
    ensures var t := After(c, run).txs[n];
      t.taken == c.endorsements && (t.order.Gone? || (t.order.Working? && p + 1 < t.order.at))
    ensures OrdersAt(c, run, k, n, PeerByHash(c.sha3(c.message(n) + "-order"), c.peers))
  {
    RunInv(c, run);
    Guarantees.ValidationFollowsOrder(c, After(c, run), n, p);
    k := OrderMoment(c, run, n);
  }

  // ---- what a transaction starts with

  /** The transaction has started and has not got a handle of its own. */
  predicate OnStoredHandle(u: UserPc) {
    !u.Waiting? && !Refreshed(u)
  }

  /** It then works with the handle that grant r, its user's at the launch, has signed. */
  ghost predicate HasStored(s: State, n: nat, r: nat) {
    n < |s.txs| && OnStoredHandle(s.txs[n].user) ==>
      r < |s.grants| && Signed(s.grants[r]) && s.txs[n].handle == s.grants[r].signed
  }

  lemma StartTakesStored(c: Config, s: State, n: nat)
    requires Inv(c, s) && UserCan(c, s, n) && c.revoke && s.txs[n].user.Waiting?
    ensures var r, s' := n / c.transactions, UserStep(c, s, n);
      && r < |s.grants| && Signed(s.grants[r]) && n < |s'.txs| && s'.txs[n].handle == s.grants[r].signed
  {
  }

  lemma LaterKeepsStored(c: Config, s: State, n: nat)
    requires Shape(c, s) && UserCan(c, s, n) && c.revoke && !s.txs[n].user.Waiting?
    ensures var t, s' := s.txs[n], UserStep(c, s, n);
      n < |s'.txs| && (OnStoredHandle(s'.txs[n].user) ==> OnStoredHandle(t.user) && s'.txs[n].handle == t.handle)
  {
    match s.txs[n].user { case _ => }
  }

  lemma OthersKeepHandle(c: Config, s: State, l: Label, n: nat)
    requires Shape(c, s) && Enabled(c, s, l) && n < |s.txs| && l != User(n)
    ensures var s' := Apply(c, s, l);
      |s'.txs| == |s.txs| && s'.txs[n].user == s.txs[n].user && s'.txs[n].handle == s.txs[n].handle
  {
    if l.User? {
      UserKeepsOthers(c, s, l.tx, n);
    } else if l.Loop? || l.Endorser? || l.Orderer? || l.Validator? {
      GoroutinesKeepUsers(c, s, l);
    }
  }

  /** After the step the transaction is on a handle that was signed in grant r before it. */
  lemma StepTakesStored(c: Config, s: State, l: Label, n: nat, r: nat)
    requires Inv(c, s) && Enabled(c, s, l) && c.revoke && n < |s.txs| && r == n / c.transactions && HasStored(s, n, r)
    ensures n < |Apply(c, s, l).txs|
    ensures OnStoredHandle(Apply(c, s, l).txs[n].user) ==>
              r < |s.grants| && Signed(s.grants[r]) && Apply(c, s, l).txs[n].handle == s.grants[r].signed
  {
    if l != User(n) {
      OthersKeepHandle(c, s, l, n);
    } else if s.txs[n].user.Waiting? {
      StartTakesStored(c, s, n);
    } else {
      LaterKeepsStored(c, s, n);
    }
  }

  lemma SignedStays(c: Config, s: State, l: Label, r: nat)
    requires Inv(c, s) && Enabled(c, s, l) && r < |s.grants| && Signed(s.grants[r])
    ensures var s' := Apply(c, s, l);
      r < |s'.grants| && Signed(s'.grants[r]) && s'.grants[r].signed == s.grants[r].signed
  {
    StepSigned(c, s, l, r);
  }

  lemma StepKeepsStored(c: Config, s: State, l: Label, n: nat, r: nat)
    requires Inv(c, s) && Enabled(c, s, l) && c.revoke && n < |s.txs| && r == n / c.transactions && HasStored(s, n, r)
    ensures HasStored(Apply(c, s, l), n, r)
  {
    StepTakesStored(c, s, l, n, r);
    if r < |s.grants| && Signed(s.grants[r]) {
      SignedStays(c, s, l, r);
    }
  }

  lemma FrontShape(c: Config, run: Run)
    requires Valid(c) && Feasible(c, run) && run != []
    ensures Shape(c, After(c, Front(run))) && |After(c, run).txs| == |After(c, Front(run)).txs|
  {
    RunInv(c, Front(run));
    StepSize(c, After(c, Front(run)), Last(run));
  }

  lemma NothingStored(c: Config, n: nat, r: nat)
    ensures HasStored(Init(c), n, r)
  {
  }

  /** From its start until its own handle arrives, a transaction works with the handle of its own user. */
  lemma {:induction false} StartsWithStoredHandle(c: Config, run: Run, n: nat, r: nat)
    requires Valid(c) && Feasible(c, run) && c.revoke && c.transactions > 0 && r == n / c.transactions
    ensures var s := After(c, run);
      n < |s.txs| && OnStoredHandle(s.txs[n].user) ==>
        r < |s.grants| && Signed(s.grants[r]) && s.txs[n].handle == s.grants[r].signed
  {
    if run == [] {
      NothingStored(c, n, r);
    } else {
      RunInv(c, Front(run));
      StartsWithStoredHandle(c, Front(run), n, r);
      FrontShape(c, run);
      if n < |After(c, run).txs| {
        StepKeepsStored(c, After(c, Front(run)), Last(run), n, r);
      }
    }
  }

  // ---- the order of the ledger

  /** This step records transaction n. */
  ghost predicate Records(c: Config, s: State, l: Label) {
    l.User? && l.tx < |s.txs| && s.txs[l.tx].user == Committing(c.peers)
  }

  /** The transactions that a run recorded, in the order in which it did. */
  ghost function RecordedBy(c: Config, run: Run): seq<nat>
    requires Feasible(c, run)
  {
    if run == [] then []
    else RecordedBy(c, Front(run)) + if Records(c, After(c, Front(run)), Last(run)) then [Last(run).tx] else []
  }

  lemma UserRecords(c: Config, s: State, n: nat)
    requires Shape(c, s) && UserCan(c, s, n)
    requires s.txs[n].user.Committing? ==> s.txs[n].user.got <= c.peers
    ensures UserStep(c, s, n).ledger == s.ledger
            || (s.txs[n].user == Committing(c.peers)
                && LedgerTxs(UserStep(c, s, n).ledger) == LedgerTxs(s.ledger) + [n])
    ensures s.txs[n].user == Committing(c.peers) ==> |UserStep(c, s, n).ledger| == |s.ledger| + 1
  {
    match s.txs[n].user { case _ => }
  }

  lemma OthersKeepLedger(c: Config, s: State, l: Label)
    requires Shape(c, s) && Enabled(c, s, l) && !l.User?
    ensures Apply(c, s, l).ledger == s.ledger
  {
    match l { case _ => }
  }

  lemma StepRecords(c: Config, s: State, l: Label)
    requires Inv(c, s) && Enabled(c, s, l)
    ensures LedgerTxs(Apply(c, s, l).ledger) == LedgerTxs(s.ledger) + if Records(c, s, l) then [l.tx] else []
  {
    if l.User? {
      assert TxInv(c, s.txs[l.tx], s.grants[c.users + l.tx], s.epoch);
      UserRecords(c, s, l.tx);
    } else {
      OthersKeepLedger(c, s, l);
    }
  }

  /** The ledger lists the transactions in the order in which they were recorded. */
  lemma {:induction false} LedgerIsInOrder(c: Config, run: Run)
    requires Valid(c) && Feasible(c, run)
    ensures LedgerTxs(After(c, run).ledger) == RecordedBy(c, run)
  {
    if run != [] {
      LedgerIsInOrder(c, Front(run));
      RunInv(c, Front(run));
      StepRecords(c, After(c, Front(run)), Last(run));
    }
  }

  // ---- the order of the answers

  /** This step sends an answer on the done channel of transaction n. */
  ghost predicate Answers(c: Config, s: State, l: Label, n: nat)
    requires Shape(c, s)
  {
    l.Endorser? && l.tx == n < |s.txs| && l.slot < c.endorsements && s.txs[n].endorse[l.slot].Replying?
  }

  /** This step sends a commit on it. */
  ghost predicate Commits(c: Config, s: State, l: Label, n: nat)
    requires Shape(c, s)
  {
    l.Validator? && l.tx == n < |s.txs| && l.peer < c.peers && s.txs[n].validate[l.peer].Replying?
  }

  /** The slots that have answered transaction n, and the peers that have committed it, in the order in which they
      did. */
  ghost function AnsweredBy(c: Config, run: Run, n: nat): seq<nat>
    requires Valid(c) && Feasible(c, run)
  {
    if run == [] then []
    else
      RunInv(c, Front(run));
      AnsweredBy(c, Front(run), n) + if Answers(c, After(c, Front(run)), Last(run), n) then [Last(run).slot] else []
  }

  ghost function CommittedBy(c: Config, run: Run, n: nat): seq<nat>
    requires Valid(c) && Feasible(c, run)
  {
    if run == [] then []
    else
      RunInv(c, Front(run));
      CommittedBy(c, Front(run), n) + if Commits(c, After(c, Front(run)), Last(run), n) then [Last(run).peer] else []
  }

  ghost predicate Logs(c: Config, s: State, l: Label, s': State, n: nat)
    requires Shape(c, s)
  {
    && n < |s.txs| == |s'.txs|
    && s'.txs[n].answers == s.txs[n].answers + (if Answers(c, s, l, n) then [l.slot] else [])
    && s'.txs[n].commits == s.txs[n].commits + (if Commits(c, s, l, n) then [l.peer] else [])
  }

  lemma EndorserLogs(c: Config, s: State, m: nat, slot: nat, hit: bool, n: nat)
    requires Shape(c, s) && EndorserCan(c, s, m, slot) && n < |s.txs|
    ensures Logs(c, s, Label.Endorser(m, slot, hit), EndorserStep(c, s, m, slot, hit), n)
  {
    match s.txs[m].endorse[slot] { case _ => }
  }

  lemma ValidatorLogs(c: Config, s: State, m: nat, p: nat, hit: bool, n: nat)
    requires Shape(c, s) && ValidatorCan(c, s, m, p) && n < |s.txs|
    ensures Logs(c, s, Label.Validator(m, p, hit), ValidatorStep(c, s, m, p, hit), n)
  {
    match s.txs[m].validate[p] { case _ => }
  }

  lemma UserLogs(c: Config, s: State, m: nat, n: nat)
    requires Shape(c, s) && UserCan(c, s, m) && n < |s.txs|
    ensures Logs(c, s, User(m), UserStep(c, s, m), n)
  {
    if m == n {
      OwnChannels(c, s, m);
    } else {
      UserKeepsOthers(c, s, m, n);
    }
  }

  lemma OwnChannels(c: Config, s: State, n: nat)
    requires Shape(c, s) && UserCan(c, s, n)
    ensures var t, s' := s.txs[n], UserStep(c, s, n);
      |s'.txs| == |s.txs| && s'.txs[n].answers == t.answers && s'.txs[n].commits == t.commits
  {
    match s.txs[n].user { case _ => }
  }

  lemma LoopLogs(c: Config, s: State, p: nat, n: nat)
    requires Shape(c, s) && LoopCan(c, s, p) && n < |s.txs|
    ensures Logs(c, s, Loop(p), LoopStep(c, s, p), n)
  {
  }

  lemma OrdererLogs(c: Config, s: State, m: nat, hit: bool, n: nat)
    requires Shape(c, s) && OrdererCan(c, s, m) && n < |s.txs|
    ensures Logs(c, s, Label.Orderer(m, hit), OrdererStep(c, s, m, hit), n)
  {
  }

  lemma GoroutineLogs(c: Config, s: State, l: Label, n: nat)
    requires Shape(c, s) && Enabled(c, s, l) && n < |s.txs| && (l.Endorser? || l.Orderer? || l.Validator? || l.Loop?)
    ensures Logs(c, s, l, Apply(c, s, l), n)
  {
    match l
    case Endorser(m, slot, hit) => EndorserLogs(c, s, m, slot, hit, n);
    case Orderer(m, hit) => OrdererLogs(c, s, m, hit, n);
    case Validator(m, p, hit) => ValidatorLogs(c, s, m, p, hit, n);
    case Loop(p) => LoopLogs(c, s, p, n);
  }

  lemma StepLogs(c: Config, s: State, l: Label, n: nat)
    requires Shape(c, s) && Enabled(c, s, l) && n < |s.txs|
    ensures Logs(c, s, l, Apply(c, s, l), n)
  {
    if l.User? {
      UserLogs(c, s, l.tx, n);
    } else if l.Endorser? || l.Orderer? || l.Validator? || l.Loop? {
      GoroutineLogs(c, s, l, n);
    } else {
      assert Apply(c, s, l).txs == s.txs;
    }
  }

  /** A done channel delivers in the order of the sends. */
  lemma {:induction false} ChannelsAreInOrder(c: Config, run: Run, n: nat)
    requires Valid(c) && Feasible(c, run) && n < c.users * c.transactions
    ensures n < |After(c, run).txs|
    ensures After(c, run).txs[n].answers == AnsweredBy(c, run, n)
    ensures After(c, run).txs[n].commits == CommittedBy(c, run, n)
  {
    if run == [] {
      InitShape(c);
    } else {
      RunInv(c, Front(run));
      ChannelsAreInOrder(c, Front(run), n);
      StepLogs(c, After(c, Front(run)), Last(run), n);
    }
  }

  /** What is sent on a done channel and not received yet fits into it, in any state in which it did before. */
  ghost predicate Fits(c: Config, t: Tx) {
    && |t.answers| <= t.taken + c.endorsements
    && |t.commits| <= (if t.user.Committing? then t.user.got else 0) + c.peers
  }

  lemma AnswerFits(c: Config, s: State, m: nat, slot: nat, hit: bool, n: nat)
    requires Shape(c, s) && EndorserCan(c, s, m, slot) && n < |s.txs| && Fits(c, s.txs[n])
    ensures n < |EndorserStep(c, s, m, slot, hit).txs| && Fits(c, EndorserStep(c, s, m, slot, hit).txs[n])
  {
    match s.txs[m].endorse[slot] { case _ => }
  }

  lemma CommitFits(c: Config, s: State, m: nat, p: nat, hit: bool, n: nat)
    requires Shape(c, s) && ValidatorCan(c, s, m, p) && n < |s.txs| && Fits(c, s.txs[n])
    ensures n < |ValidatorStep(c, s, m, p, hit).txs| && Fits(c, ValidatorStep(c, s, m, p, hit).txs[n])
  {
    match s.txs[m].validate[p] { case _ => }
  }

  /** A goroutine sends only if there is room. */
  lemma SendsFit(c: Config, s: State, l: Label, n: nat)
    requires Shape(c, s) && Enabled(c, s, l) && (l.Endorser? || l.Validator?) && n < |s.txs| && Fits(c, s.txs[n])
    ensures n < |Apply(c, s, l).txs| && Fits(c, Apply(c, s, l).txs[n])
  {
    match l
    case Endorser(m, slot, hit) => AnswerFits(c, s, m, slot, hit, n);
    case Validator(m, p, hit) => CommitFits(c, s, m, p, hit, n);
  }

  lemma EntryIsComplete(c: Config, s: State, k: nat)
    requires Inv(c, s) && k < |s.ledger|
    ensures s.ledger[k].tx < |s.txs| && s.txs[s.ledger[k].tx].taken == |s.txs[s.ledger[k].tx].answers|
    ensures s.ledger[k].endorsers == EndorsersOf(c, s.ledger[k].tx, s.txs[s.ledger[k].tx].answers)
  {
    var e := s.ledger[k];
    assert EntryInv(c, s, e) && LedgerTxs(s.ledger)[k] == e.tx;
    var t := s.txs[e.tx];
    DoneIsComplete(c, t, s.grants[c.users + e.tx], s.epoch);
    assert t.answers[..t.taken] == t.answers;
  }

  /** A recorded transaction lists its endorsers in the order in which they answered, each as the window has it. */
  lemma EndorsersInOrder(c: Config, run: Run, k: nat)
    requires Valid(c) && Feasible(c, run) && k < |After(c, run).ledger|
    ensures var e := After(c, run).ledger[k];
      var slots := AnsweredBy(c, run, e.tx);
      && |e.endorsers| == |slots|
      && forall i :: 0 <= i < |slots| ==> slots[i] < c.endorsements && e.endorsers[i] == AskedOf(c, e.tx)[slots[i]]
  {
    RunInv(c, run);
    EntryIsComplete(c, After(c, run), k);
    var n := After(c, run).ledger[k].tx;
    ChannelsAreInOrder(c, run, n);
    AnswersAreSlots(c, After(c, run), n);
  }

  lemma AnswersAreSlots(c: Config, s: State, n: nat)
    requires Inv(c, s) && n < |s.txs|
    ensures forall i :: 0 <= i < |s.txs[n].answers| ==> s.txs[n].answers[i] < c.endorsements
  {
    assert TxInv(c, s.txs[n], s.grants[c.users + n], s.epoch);
  }

  // ---- what the clock and a current epoch do

  /** At step k of the run the authority has a request in hand. */
  ghost predicate BusyAt(c: Config, run: Run, k: nat) {
    k <= |run| && Feasible(c, run[..k]) && After(c, run[..k]).authority.Busy?
  }

  lemma LastIsNoTick(c: Config, run: Run)
    requires Feasible(c, run) && run != [] && BusyAt(c, run, |run| - 1)
    ensures Last(run) != Tick
  {
    assert run[..|run| - 1] == Front(run);
  }

  /** The clock stands still while the authority has a request in hand. */
  lemma {:induction false} NoTickWhileBusy(c: Config, run: Run, a: nat)
    requires Feasible(c, run) && a <= |run| && forall k :: a <= k < |run| ==> BusyAt(c, run, k)
    ensures Ticks(run[a..]) == 0
  {
    if a < |run| {
      LastIsNoTick(c, run);
      forall k | a <= k < |Front(run)| ensures BusyAt(c, Front(run), k) {
        assert BusyAt(c, run, k) && Front(run)[..k] == run[..k];
      }
      NoTickWhileBusy(c, Front(run), a);
      assert Front(run[a..]) == Front(run)[a..] && Last(run[a..]) == Last(run);
    }
  }

  lemma StepWithoutRevocation(c: Config, s: State, l: Label)
    requires Shape(c, s) && Enabled(c, s, l) && !c.revoke
    ensures Apply(c, s, l).epoch == s.epoch
  {
    if l.Loop? || l.Endorser? || l.Orderer? || l.Validator? {
      GoroutinesKeepUsers(c, s, l);
    }
  }

  /** The epoch of the network counts the ticks with revocation, and stays what it was without. */
  lemma {:induction false} EpochIs(c: Config, run: Run)
    requires Valid(c) && Feasible(c, run)
    ensures After(c, run).epoch == if c.revoke then 1 + Ticks(run) else 1
  {
    if c.revoke {
      RunEpoch(c, run);
    } else if run != [] {
      RunInv(c, Front(run));
      EpochIs(c, Front(run));
      StepWithoutRevocation(c, After(c, Front(run)), Last(run));
    }
  }

  /** A transaction asks for a handle if and only if the epoch it reads is not the one it has; otherwise it goes on
      with the handle that it has, and nothing else happens. */
  lemma ReadingAsksIff(c: Config, s: State, n: nat)
    requires Shape(c, s) && UserCan(c, s, n) && s.txs[n].user.Reading?
    ensures var t, s' := s.txs[n], UserStep(c, s, n);
      && n < |s'.txs| && s'.txs[n].epoch == s.epoch && s'.txs[n].handle == t.handle && s'.events == s.events
      && s'.txs[n].user == (if t.epoch == s.epoch then Building else Requesting)
      && s'.grants == s.grants && s'.authority == s.authority
  {
  }

  // ---- when a validator panics

  /** A validator panics at the endorsements if and only if there are too few, and at the handle if and only if it
      was signed for another epoch than the transaction claims; everywhere else it goes on. */
  lemma ValidatorPanicsIff(c: Config, s: State, n: nat, p: nat, hit: bool)
    requires Shape(c, s) && s.crash == NoCrash && ValidatorCan(c, s, n, p)
    ensures var t, crash := s.txs[n], ValidatorStep(c, s, n, p, hit).crash;
      && (crash == TooFewEndorsements(n) <==> t.validate[p] == Working(1) && t.taken < c.endorsements)
      && (crash == StaleHandle(n) <==> t.validate[p] == Working(4) && c.revoke && t.epoch != t.handle)
      && (crash.NoCrash? || crash == TooFewEndorsements(n) || crash == StaleHandle(n))
  {
    match s.txs[n].validate[p] { case _ => }
  }
}
