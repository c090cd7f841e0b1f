/** Deadlock freedom: unless the simulation has finished or panicked, some process other than the clock
    can move. */
module Progress {
  import Arithmetic
  import opened Sums
  import opened Protocol
  import opened Accounts
  import opened Invariant

  /** Free permits plus permits held make up the configured limits. */
  ghost predicate Funded(c: Config, s: State)
    requires Shape(c, s)
  {
    && (forall p :: 0 <= p < c.peers ==>
          && Balance(c, EndorsePermit(p), s) == c.concurrentEndorsements
          && Balance(c, ValidatePermit(p), s) == c.concurrentValidations)
    && Balance(c, GrantPermit, s) == c.concurrentRevocations
  }

  ghost predicate Can(c: Config, s: State, l: Label)
    requires Shape(c, s)
  {
    l != Tick && Enabled(c, s, l)
  }

  lemma EndorserMoves(c: Config, s: State, n: nat, slot: nat) returns (l: Label)
    requires Inv(c, s) && s.crash == NoCrash && n < |s.txs| && slot < c.endorsements && Holds(s.txs[n].endorse[slot])
    ensures Can(c, s, l) && l == Label.Endorser(n, slot, false)
  {
    var t := s.txs[n];
    assert TxInv(c, t, s.grants[c.users + n], s.epoch);
    LogBound(t.answers, c.endorsements);
    l := Label.Endorser(n, slot, false);
  }

  lemma ValidatorMoves(c: Config, s: State, n: nat, p: nat) returns (l: Label)
    requires Inv(c, s) && s.crash == NoCrash && n < |s.txs| && p < c.peers && Holds(s.txs[n].validate[p])
    ensures Can(c, s, l) && !l.Endorser?
  {
    var t := s.txs[n];
    assert TxInv(c, t, s.grants[c.users + n], s.epoch);
    LogBound(t.commits, c.peers);
    l := Label.Validator(n, p, false);
  }

  lemma NoGrantHolds(c: Config, w: Weight, grants: seq<Grant>)
    requires w.EndorsePermit? || w.ValidatePermit?
    ensures GrantTotal(c, w, grants) == 0
  {
    SumConst(GrantWeights(c, w, grants), 0);
  }

  lemma HolderOfEndorsePermit(c: Config, s: State, p: nat) returns (n: nat, slot: nat)
    requires Shape(c, s) && Total(c, EndorsePermit(p), s) > 0
    ensures n < |s.txs| && slot < c.endorsements && Holds(s.txs[n].endorse[slot]) && EndorserAt(c, n, slot) == p
  {
    var w := EndorsePermit(p);
    NoGrantHolds(c, w, s.grants);
    n := SumWitness(TxWeights(c, w, s.txs));
    SumConst(ValidateWeights(c, w, n, s.txs[n].validate), 0);
    slot := SumWitness(EndorseWeights(c, w, n, s.txs[n].endorse));
  }

  lemma HolderOfValidatePermit(c: Config, s: State, p: nat) returns (n: nat, q: nat)
    requires Shape(c, s) && Total(c, ValidatePermit(p), s) > 0
    ensures n < |s.txs| && q < c.peers && Holds(s.txs[n].validate[q])
  {
    var w := ValidatePermit(p);
    NoGrantHolds(c, w, s.grants);
    n := SumWitness(TxWeights(c, w, s.txs));
    SumConst(EndorseWeights(c, w, n, s.txs[n].endorse), 0);
    q := SumWitness(ValidateWeights(c, w, n, s.txs[n].validate));
  }

  lemma HolderOfGrantPermit(c: Config, s: State) returns (r: nat)
    requires Shape(c, s) && Total(c, GrantPermit, s) > 0
    ensures r < |s.grants| && Holds(s.grants[r].pc)
  {
    var w := GrantPermit;
    forall n | 0 <= n < |s.txs| ensures TxWeight(c, w, n, s.txs[n]) == 0 {
      var t := s.txs[n];
      SumConst(EndorseWeights(c, w, n, t.endorse), 0);
      SumConst(ValidateWeights(c, w, n, t.validate), 0);
    }
    SumConst(TxWeights(c, w, s.txs), 0);
    r := SumWitness(GrantWeights(c, w, s.grants));
  }

  /** A loop that finds no free permit waits for a goroutine that can move. */
  lemma StarvedLoopMoves(c: Config, s: State, p: nat) returns (l: Label)
    requires Inv(c, s) && Funded(c, s) && s.crash == NoCrash && p < c.peers
    requires s.endorsePermits[p] == 0 || s.validatePermits[p] == 0
    ensures Can(c, s, l)
  {
    if s.endorsePermits[p] == 0 {
      assert Balance(c, EndorsePermit(p), s) == c.concurrentEndorsements;
      var n, slot := HolderOfEndorsePermit(c, s, p);
      l := EndorserMoves(c, s, n, slot);
    } else {
      assert Balance(c, ValidatePermit(p), s) == c.concurrentValidations;
      var n, q := HolderOfValidatePermit(c, s, p);
      l := ValidatorMoves(c, s, n, q);
    }
  }

  lemma FedLoopMoves(c: Config, s: State, p: nat)
    requires Inv(c, s) && p < c.peers && s.loops[p].Busy? && s.endorsePermits[p] > 0 && s.validatePermits[p] > 0
    ensures LoopCan(c, s, p)
  {
    assert LoopInv(c, s, p);
    var j := s.loops[p].job;
    assert TxInv(c, s.txs[j.tx], s.grants[c.users + j.tx], s.epoch);
  }

  lemma BusyLoopMoves(c: Config, s: State, p: nat) returns (l: Label)
    requires Inv(c, s) && Funded(c, s) && s.crash == NoCrash && p < c.peers && s.loops[p].Busy?
    ensures Can(c, s, l)
  {
    if s.endorsePermits[p] == 0 || s.validatePermits[p] == 0 {
      l := StarvedLoopMoves(c, s, p);
    } else {
      FedLoopMoves(c, s, p);
      l := Loop(p);
    }
  }

  /** A grant in progress can move, or its requester can take it. */
  lemma GrantProgress(c: Config, s: State, r: nat) returns (l: Label)
    requires Inv(c, s) && s.crash == NoCrash && r < |s.grants| && Holds(s.grants[r].pc)
    ensures Can(c, s, l) && !l.Endorser?
  {
    assert c.revoke;
    l := Granter(r);
    if s.grants[r].pc.Replying? {
      if r < c.users {
        l := Main;
      } else {
        var n := r - c.users;
        assert TxInv(c, s.txs[n], s.grants[c.users + n], s.epoch);
        l := User(n);
      }
    }
  }

  lemma BusyAuthorityMoves(c: Config, s: State) returns (l: Label)
    requires Inv(c, s) && Funded(c, s) && s.crash == NoCrash && s.authority.Busy?
    ensures Can(c, s, l) && !l.Endorser?
  {
    l := Authority;
    if s.grants[s.authority.job].pc.Acquiring? && s.grantPermits == 0 {
      var r := HolderOfGrantPermit(c, s);
      l := GrantProgress(c, s, r);
    }
  }

  /** No loop is occupied. */
  ghost predicate Idle(c: Config, s: State)
    requires Shape(c, s)
  {
    !s.authority.Busy? && forall p :: 0 <= p < c.peers ==> !s.loops[p].Busy?
  }

  lemma CollectingMoves(c: Config, s: State, n: nat) returns (l: Label)
    requires Inv(c, s) && s.crash == NoCrash && Idle(c, s) && n < |s.txs| && s.txs[n].user.Collecting?
    ensures Can(c, s, l) && (l.Endorser? ==> l.tx == n)
  {
    var t := s.txs[n];
    assert TxInv(c, t, s.grants[c.users + n], s.epoch);
    assert TxLoops(c, n, t, s.loops);
    if t.taken < |t.answers| {
      l := User(n);
    } else {
      LogBound(t.answers, c.endorsements);
      var i :| 0 <= i < c.endorsements && i !in t.answers;
      assert !InLoop(t.endorse[i]);
      l := EndorserMoves(c, s, n, i);
    }
  }

  lemma CommittingMoves(c: Config, s: State, n: nat) returns (l: Label)
    requires Inv(c, s) && s.crash == NoCrash && Idle(c, s) && !Joined(s.main)
    requires n < |s.txs| && s.txs[n].user.Committing?
    ensures Can(c, s, l) && !l.Endorser?
  {
    var t := s.txs[n];
    assert TxInv(c, t, s.grants[c.users + n], s.epoch);
    assert TxLoops(c, n, t, s.loops);
    if t.user.got == c.peers || t.user.got < |t.commits| {
      l := User(n);
    } else {
      LogBound(t.commits, c.peers);
      var p :| 0 <= p < c.peers && p !in t.commits;
      if t.validate[p].Unsent? {
        l := Label.Orderer(n, false);
      } else {
        assert !InLoop(t.validate[p]);
        l := ValidatorMoves(c, s, n, p);
      }
    }
  }

  lemma AwaitingMoves(c: Config, s: State, n: nat) returns (l: Label)
    requires Inv(c, s) && s.crash == NoCrash && Idle(c, s) && n < |s.txs| && s.txs[n].user.Awaiting?
    ensures Can(c, s, l) && !l.Endorser?
  {
    assert TxInv(c, s.txs[n], s.grants[c.users + n], s.epoch);
    l := GrantProgress(c, s, c.users + n);
  }

  /** A user that waits for no goroutine finds the loops it needs selecting. */
  lemma FreeUserMoves(c: Config, s: State, n: nat) returns (l: Label)
    requires Inv(c, s) && s.crash == NoCrash && Idle(c, s) && s.main == Launching(c.users)
    requires n < |s.txs| && c.transactions > 0 && UserOf(c, n) < c.users
    requires n % c.transactions == 0 || s.txs[n - 1].user.Done?
    requires var u := s.txs[n].user; !u.Collecting? && !u.Awaiting? && !u.Committing? && !u.Done?
    ensures Can(c, s, l) && !l.Endorser?
  {
    assert TxInv(c, s.txs[n], s.grants[c.users + n], s.epoch);
    l := User(n);
  }

  /** With idle loops, a transaction whose predecessor is done can go on. */
  lemma TxMoves(c: Config, s: State, n: nat) returns (l: Label)
    requires c.transactions > 0 && n < |s.txs| && !s.txs[n].user.Done?
    requires n % c.transactions == 0 || (n > 0 && s.txs[n - 1].user.Done?)
    requires Inv(c, s) && s.crash == NoCrash && Idle(c, s) && s.main == Launching(c.users)
    ensures Can(c, s, l) && (l.Endorser? ==> l.tx == n)
  {
    UserExists(c, s, n);
    match s.txs[n].user
    case Collecting => l := CollectingMoves(c, s, n);
    case Awaiting => l := AwaitingMoves(c, s, n);
    case Committing(_) => l := CommittingMoves(c, s, n);
    case _ => l := FreeUserMoves(c, s, n);
  }

  lemma UserExists(c: Config, s: State, n: nat)
    requires Shape(c, s) && n < |s.txs|
    ensures c.transactions > 0 && UserOf(c, n) < c.users
  {
    Arithmetic.DivisionBelow(n, c.users, c.transactions);
  }

  lemma {:induction false} FirstUnfinished(s: State, upTo: nat) returns (n: nat)
    requires upTo <= |s.txs| && exists k :: 0 <= k < upTo && !s.txs[k].user.Done?
    ensures n < upTo && !s.txs[n].user.Done? && forall k :: 0 <= k < n ==> s.txs[k].user.Done?
  {
    n := upTo - 1;
    if exists k :: 0 <= k < n && !s.txs[k].user.Done? {
      n := FirstUnfinished(s, n);
    }
  }

  lemma FirstMoves(c: Config, s: State) returns (l: Label)
    requires Inv(c, s) && s.crash == NoCrash && Idle(c, s) && s.main == Launching(c.users) && !AllDone(s)
    ensures Can(c, s, l)
  {
    var n := FirstUnfinished(s, |s.txs|);
    assert n % c.transactions == 0 || n > 0;
    l := TxMoves(c, s, n);
  }

  /** Unless it waits for the users, the main goroutine can go on, or a grant it waits for can. */
  lemma MainMoves(c: Config, s: State) returns (l: Label)
    requires Inv(c, s) && s.crash == NoCrash && Idle(c, s) && !s.main.Finished?
    requires s.main == Launching(c.users) ==> AllDone(s)
    ensures Can(c, s, l) && !l.Endorser?
  {
    match s.main
    case AwaitingHandle(u) => l := GrantProgress(c, s, u);
    case _ => l := Main;
  }

  lemma IdleMoves(c: Config, s: State) returns (l: Label)
    requires Inv(c, s) && s.crash == NoCrash && Idle(c, s) && !s.main.Finished?
    ensures Can(c, s, l)
  {
    if s.main == Launching(c.users) && !AllDone(s) {
      l := FirstMoves(c, s);
    } else {
      l := MainMoves(c, s);
    }
  }

  /** Deadlock freedom. */
  lemma SomeProcessMoves(c: Config, s: State) returns (l: Label)
    requires Inv(c, s) && Funded(c, s) && s.crash == NoCrash && !s.main.Finished?
    ensures l != Tick && Enabled(c, s, l)
  {
    if s.authority.Busy? {
      l := BusyAuthorityMoves(c, s);
    } else if p :| 0 <= p < c.peers && s.loops[p].Busy? {
      l := BusyLoopMoves(c, s, p);
    } else {
      l := IdleMoves(c, s);
    }
  }
}
