/** A lost append costs a verification: where endorsements can be under way together at a peer that grants two
    permits, some simulation verifies a transaction twice for one cache. */
module LostAppends {
  import Arithmetic
  import opened Sums
  import opened Protocol
  import opened Accounts
  import opened Invariant
  import opened Budgets
  import opened Guarantees
  import opened Runs
  import opened Verifications
  import opened Caching
  import opened Crowds
  import opened CachedRuns
  import G = Progress
  import R = Scenarios

  // ---- holding back the first checks of two transactions at one peer

  /** The endorse goroutines at the peer of i for the transactions of i and j. */
  ghost predicate Family(c: Config, i: Job, j: Job, k: Job)
    requires c.peers >= 1
  {
    k.EndorseJob? && CacheOf(c, k) == CacheOf(c, i) && (k.tx == i.tx || k.tx == j.tx)
  }

  /** This step would be a check of one of them. */
  ghost predicate FamilyLook(c: Config, s: State, i: Job, j: Job, l: Label)
    requires Shape(c, s) && Enabled(c, s, l)
  {
    var look := LookOf(c, s, l);
    look.Look? && Cache(look.target.op, look.target.peer) == CacheOf(c, i)
    && (look.target.tx == i.tx || look.target.tx == j.tx)
  }

  ghost predicate Unlooked(c: Config, s: State, i: Job, j: Job)
    requires Shape(c, s)
  {
    forall k :: Family(c, i, j, k) && IsJob(c, s, k) ==> !Checked(k, PcOf(c, s, k))
  }

  ghost predicate Ready(c: Config, s: State, i: Job, j: Job, k: Job)
    requires Shape(c, s)
  {
    Family(c, i, j, k) && IsJob(c, s, k) && PcOf(c, s, k) == Working(1)
  }

  /** Two of them are about to make their first check. */
  ghost predicate BothReady(c: Config, s: State, i: Job, j: Job)
    requires Shape(c, s)
  {
    exists a, b :: Ready(c, s, i, j, a) && Ready(c, s, i, j, b) && a != b
  }

  lemma LookIsReady(c: Config, s: State, i: Job, j: Job, l: Label)
    requires Shape(c, s) && i.EndorseJob? && Enabled(c, s, l) && FamilyLook(c, s, i, j, l) && Unlooked(c, s, i, j)
    ensures l.Endorser? && Ready(c, s, i, j, EndorseJob(l.tx, l.slot))
  {
    assert l.Endorser?;
    assert Family(c, i, j, EndorseJob(l.tx, l.slot));
  }

  // ---- somebody else can move

  lemma OtherHolder(c: Config, s: State, p: nat, h: Job) returns (n: nat, slot: nat)
    requires Shape(c, s) && h.EndorseJob? && IsJob(c, s, h) && Holds(PcOf(c, s, h))
    requires Total(c, EndorsePermit(p), s) >= 2
    ensures n < |s.txs| && slot < c.endorsements && Holds(s.txs[n].endorse[slot]) && EndorseJob(n, slot) != h
  {
    if EndorserAt(c, h.tx, h.slot) == p {
      OneLess(c, s, h.tx, h.slot);
      n, slot := G.HolderOfEndorsePermit(c, Without(s, h.tx, h.slot), p);
    } else {
      n, slot := G.HolderOfEndorsePermit(c, s, p);
    }
  }

  ghost predicate Spares(h: Job, l: Label) {
    l.Endorser? ==> EndorseJob(l.tx, l.slot) != h
  }

  lemma StarvedLoopSpares(c: Config, s: State, p: nat, h: Job) returns (l: Label)
    requires Inv(c, s) && G.Funded(c, s) && s.crash == NoCrash && p < c.peers && c.concurrentEndorsements >= 2
    requires h.EndorseJob? && IsJob(c, s, h) && Holds(PcOf(c, s, h))
    requires s.endorsePermits[p] == 0 || s.validatePermits[p] == 0
    ensures G.Can(c, s, l) && Spares(h, l)
  {
    if s.endorsePermits[p] == 0 {
      assert Balance(c, EndorsePermit(p), s) == c.concurrentEndorsements;
      var n, slot := OtherHolder(c, s, p, h);
      l := G.EndorserMoves(c, s, n, slot);
    } else {
      assert Balance(c, ValidatePermit(p), s) == c.concurrentValidations;
      var n, q := G.HolderOfValidatePermit(c, s, p);
      l := G.ValidatorMoves(c, s, n, q);
    }
  }

  lemma BusyLoopSpares(c: Config, s: State, p: nat, h: Job) returns (l: Label)
    requires Inv(c, s) && G.Funded(c, s) && s.crash == NoCrash && p < c.peers && c.concurrentEndorsements >= 2
    requires h.EndorseJob? && IsJob(c, s, h) && Holds(PcOf(c, s, h)) && s.loops[p].Busy?
    ensures G.Can(c, s, l) && Spares(h, l)
  {
    if s.endorsePermits[p] == 0 || s.validatePermits[p] == 0 {
      l := StarvedLoopSpares(c, s, p, h);
    } else {
      G.FedLoopMoves(c, s, p);
      l := Loop(p);
    }
  }

  /** While an endorsement is at work its user sends or collects. */
  lemma StillCollecting(c: Config, t: Tx, g: Grant, epoch: nat, slot: nat)
    requires c.peers >= 1 && TxInv(c, t, g, epoch) && slot < c.endorsements && t.endorse[slot].Working?
    ensures t.user.Sending? || t.user.Collecting?
  {
    LogBound(t.answers, c.endorsements);
    WorkIsStarted(c, t, g, epoch, slot);
  }

  lemma CollectingSpares(c: Config, s: State, h: Job, o: Job) returns (l: Label)
    requires Inv(c, s) && s.crash == NoCrash && G.Idle(c, s) && h.EndorseJob? && o.EndorseJob? && o != h && o.tx == h.tx
    requires IsJob(c, s, h) && IsJob(c, s, o) && !Checked(o, PcOf(c, s, o)) && s.txs[h.tx].user.Collecting?
    ensures G.Can(c, s, l) && Spares(h, l)
  {
    var n, t := h.tx, s.txs[h.tx];
    assert TxInv(c, t, s.grants[c.users + n], s.epoch);
    assert TxLoops(c, n, t, s.loops);
    if t.taken < |t.answers| {
      l := User(n);
    } else {
      assert !InLoop(t.endorse[o.slot]) && !t.endorse[o.slot].Unsent?;
      l := G.EndorserMoves(c, s, n, o.slot);
    }
  }

  /** Two endorsements of one transaction, one of them held back. */
  lemma SameTxSpares(c: Config, s: State, h: Job, o: Job) returns (l: Label)
    requires Inv(c, s) && s.crash == NoCrash && G.Idle(c, s) && s.main == Launching(c.users)
    requires h.EndorseJob? && o.EndorseJob? && o != h && o.tx == h.tx && IsJob(c, s, h) && IsJob(c, s, o)
    requires PcOf(c, s, h).Working? && !Checked(o, PcOf(c, s, o))
    ensures G.Can(c, s, l) && Spares(h, l)
  {
    var n := h.tx;
    StillCollecting(c, s.txs[n], s.grants[c.users + n], s.epoch, h.slot);
    if s.txs[n].user.Sending? {
      assert Started(c, s, n);
      G.UserExists(c, s, n);
      l := G.FreeUserMoves(c, s, n);
    } else {
      l := CollectingSpares(c, s, h, o);
    }
  }

  /** The first transaction of m's user that is not done. */
  lemma {:induction false} FirstOfUser(c: Config, s: State, m: nat) returns (b: nat)
    requires Shape(c, s) && m < |s.txs| && !s.txs[m].user.Done?
    ensures b <= m && UserOf(c, b) == UserOf(c, m) && !s.txs[b].user.Done?
    ensures b % c.transactions == 0 || (b > 0 && s.txs[b - 1].user.Done?)
  {
    if m % c.transactions == 0 || s.txs[m - 1].user.Done? {
      b := m;
    } else {
      Arithmetic.Successor(m - 1, c.transactions);
      b := FirstOfUser(c, s, m - 1);
    }
  }

  lemma UncheckedIsNotDone(c: Config, t: Tx, g: Grant, epoch: nat, k: Job)
    requires c.peers >= 1 && TxInv(c, t, g, epoch) && k.EndorseJob? && k.slot < c.endorsements
    requires !Checked(k, t.endorse[k.slot])
    ensures !t.user.Done?
  {
    if t.user.Done? {
      DoneIsComplete(c, t, g, epoch);
    }
  }

  /** Endorsements of different users, one of them held back. */
  lemma OtherUserSpares(c: Config, s: State, h: Job, o: Job) returns (l: Label)
    requires Inv(c, s) && s.crash == NoCrash && G.Idle(c, s) && s.main == Launching(c.users)
    requires h.EndorseJob? && o.EndorseJob? && IsJob(c, s, h) && IsJob(c, s, o)
    requires UserOf(c, h.tx) != UserOf(c, o.tx) && !Checked(o, PcOf(c, s, o))
    ensures G.Can(c, s, l) && Spares(h, l)
  {
    UncheckedIsNotDone(c, s.txs[o.tx], s.grants[c.users + o.tx], s.epoch, o);
    var b := FirstOfUser(c, s, o.tx);
    l := G.TxMoves(c, s, b);
  }

  lemma UsersSpare(c: Config, s: State, i: Job, j: Job, h: Job) returns (l: Label)
    requires Inv(c, s) && s.crash == NoCrash && G.Idle(c, s) && s.main == Launching(c.users)
    requires Together(c, i, j) && Unlooked(c, s, i, j) && Ready(c, s, i, j, h)
    ensures G.Can(c, s, l) && Spares(h, l)
  {
    var o := if h == i then j else i;
    assert Family(c, i, j, o) && IsJob(c, s, o);
    if o.tx == h.tx {
      l := SameTxSpares(c, s, h, o);
    } else {
      l := OtherUserSpares(c, s, h, o);
    }
  }

  lemma HeldSpares(c: Config, s: State, i: Job, j: Job, h: Job) returns (l: Label)
    requires Inv(c, s) && G.Funded(c, s) && s.crash == NoCrash && !s.main.Finished? && c.concurrentEndorsements >= 2
    requires Together(c, i, j) && Unlooked(c, s, i, j) && Ready(c, s, i, j, h)
    ensures G.Can(c, s, l) && Spares(h, l)
  {
    if s.authority.Busy? {
      l := G.BusyAuthorityMoves(c, s);
    } else if p :| 0 <= p < c.peers && s.loops[p].Busy? {
      l := BusyLoopSpares(c, s, p, h);
    } else if s.main == Launching(c.users) && !AllDone(s) {
      l := UsersSpare(c, s, i, j, h);
    } else {
      l := G.MainMoves(c, s);
    }
  }

  /** Until two of them are ready, some process can move without a check of the family. */
  lemma HeldProgress(c: Config, s: State, i: Job, j: Job) returns (l: Label)
    requires Inv(c, s) && G.Funded(c, s) && s.crash == NoCrash && !s.main.Finished? && c.concurrentEndorsements >= 2
    requires Together(c, i, j) && Unlooked(c, s, i, j) && !BothReady(c, s, i, j)
    ensures l != Tick && Enabled(c, s, l) && !FamilyLook(c, s, i, j, l)
  {
    if h :| Ready(c, s, i, j, h) {
      l := HeldSpares(c, s, i, j, h);
      if FamilyLook(c, s, i, j, l) {
        LookIsReady(c, s, i, j, l);
      }
    } else {
      l := G.SomeProcessMoves(c, s);
      if FamilyLook(c, s, i, j, l) {
        LookIsReady(c, s, i, j, l);
      }
    }
  }

  // ---- up to the moment when two of them are ready

  lemma UnlookedStays(c: Config, s: State, l: Label, i: Job, j: Job)
    requires Shape(c, s) && Enabled(c, s, l) && Shape(c, Apply(c, s, l)) && |Apply(c, s, l).txs| == |s.txs|
    requires Unlooked(c, s, i, j) && !FamilyLook(c, s, i, j, l)
    ensures Unlooked(c, Apply(c, s, l), i, j)
  {
    forall k | Family(c, i, j, k) && IsJob(c, Apply(c, s, l), k) ensures !Checked(k, PcOf(c, Apply(c, s, l), k)) {
      if Checked(k, PcOf(c, Apply(c, s, l), k)) {
        StepChecks(c, s, l, k);
      }
    }
  }

  /** The family's checks are all still ahead. */
  ghost predicate Held(c: Config, moves: seq<Move>, i: Job, j: Job) {
    && c.peers >= 1 && Calm(c, moves) && Shape(c, Reached(c, moves).state)
    && Unlooked(c, Reached(c, moves).state, i, j)
    && TargetOf(c, i) !in VerifiedBy(c, moves) && TargetOf(c, j) !in VerifiedBy(c, moves)
  }

  lemma CalmIsFunded(c: Config, moves: seq<Move>)
    requires Valid(c) && Calm(c, moves)
    ensures Shape(c, Reached(c, moves).state) && G.Funded(c, Reached(c, moves).state)
    ensures Reached(c, moves).state.crash == NoCrash
  {
    CalmIsSafe(c, moves);
    TraceIsFeasible(c, moves);
    RunFunded(c, Trace(c, moves));
  }

  lemma UnlookedIsUnfinished(c: Config, s: State, i: Job, j: Job)
    requires Inv(c, s) && Together(c, i, j) && Unlooked(c, s, i, j)
    ensures !s.main.Finished?
  {
    if s.main.Finished? {
      JoinedIsDrained(c, s);
      CompleteIsChecked(c, s, i);
      assert Family(c, i, j, i);
    }
  }

  lemma StillUnverified(c: Config, s: State, i: Job, j: Job, l: Label, verified: seq<Target>)
    requires Shape(c, s) && Enabled(c, s, l) && !FamilyLook(c, s, i, j, l) && CacheOf(c, i) == CacheOf(c, j)
    requires TargetOf(c, i) !in verified && TargetOf(c, j) !in verified
    ensures TargetOf(c, i) !in verified + VerifiedIn(LookOf(c, s, l))
    ensures TargetOf(c, j) !in verified + VerifiedIn(LookOf(c, s, l))
  {
  }

  lemma SameLookSpares(c: Config, s: State, i: Job, j: Job, l: Label, l': Label)
    requires Shape(c, s) && Enabled(c, s, l) && Enabled(c, s, l') && SameLook(c, s, l, l') && !FamilyLook(c, s, i, j, l)
    ensures !FamilyLook(c, s, i, j, l')
  {
  }

  lemma StepHeld(c: Config, moves: seq<Move>, i: Job, j: Job) returns (more: seq<Move>)
    requires Valid(c) && Together(c, i, j) && c.concurrentEndorsements >= 2 && Held(c, moves, i, j)
    requires !BothReady(c, Reached(c, moves).state, i, j)
    ensures Held(c, more, i, j) && moves <= more
    ensures Moves(Trace(c, moves)) < Moves(Trace(c, more)) <= StepBudget(c)
  {
    var s := Reached(c, moves).state;
    ReachedInv(c, moves);
    CalmIsFunded(c, moves);
    UnlookedIsUnfinished(c, s, i, j);
    var l := HeldProgress(c, s, i, j);
    var l';
    more, l' := StepCalmly(c, moves, l);
    SameLookSpares(c, s, i, j, l, l');
    ReachedInv(c, more);
    UnlookedStays(c, s, l', i, j);
    StillUnverified(c, s, i, j, l', VerifiedBy(c, moves));
  }

  lemma {:induction false} HoldOn(c: Config, moves: seq<Move>, i: Job, j: Job) returns (more: seq<Move>)
    requires Valid(c) && Together(c, i, j) && c.concurrentEndorsements >= 2 && Held(c, moves, i, j)
    ensures Held(c, more, i, j) && BothReady(c, Reached(c, more).state, i, j)
    decreases StepBudget(c) - Moves(Trace(c, moves))
  {
    if BothReady(c, Reached(c, moves).state, i, j) {
      more := moves;
    } else {
      var next := StepHeld(c, moves, i, j);
      more := HoldOn(c, next, i, j);
    }
  }

  lemma NothingIsChecked(c: Config, i: Job, j: Job)
    requires Shape(c, Init(c))
    ensures Unlooked(c, Init(c), i, j)
  {
  }

  lemma StartIsHeld(c: Config, i: Job, j: Job)
    requires Valid(c)
    ensures Held(c, [], i, j)
  {
    StartIsCalm(c);
    InitShape(c);
    NothingIsChecked(c, i, j);
  }

  // ---- the lost append

  lemma NotCached(c: Config, moves: seq<Move>, j: Job)
    requires Valid(c) && Possible(c, moves) && TargetOf(c, j) !in VerifiedBy(c, moves)
    ensures j.tx !in ListOf(Reached(c, moves), CacheOf(c, j))
  {
    CachesAreBacked(c, moves);
    assert Backed(VerifiedBy(c, moves), CacheOf(c, j), ListOf(Reached(c, moves), CacheOf(c, j)));
  }

  /** Two goroutines of one cache at a check; the first has loaded its list. */
  ghost predicate LoadedFirst(c: Config, moves: seq<Move>, a: Job, b: Job, list: seq<nat>) {
    && c.peers >= 1 && Possible(c, moves) && Shape(c, Reached(c, moves).state)
    && Ticks(Trace(c, moves)) == 0
    && a != b && CacheOf(c, a) == CacheOf(c, b)
    && OnlyInside(Reached(c, moves), a) && StageOf(Reached(c, moves), a) == Loaded(list)
    && AtCheck(c, Reached(c, moves).state, a) && AtCheck(c, Reached(c, moves).state, b)
  }

  lemma NotInside(x: System, a: Job, b: Job)
    requires OnlyInside(x, a) && a != b
    ensures !Inside(x, b)
  {
  }

  /** The first stays where it is when the second moves. */
  lemma FirstStays(x: System, x': System, a: Job, b: Job)
    requires OthersStay(x, x', b) && a != b && OnlyInside(x, a)
    ensures StageOf(x', a) == StageOf(x, a) && (forall i :: Inside(x', i) ==> i == a || i == b)
  {
    forall i ensures Inside(x', i) ==> i == a || i == b {
      assert i != b ==> StageOf(x', i) == StageOf(x, i);
      assert Inside(x, i) ==> i == a;
    }
  }

  lemma StaysAgain(x: System, x': System, a: Job, b: Job)
    requires OthersStay(x, x', b) && a != b && forall i :: Inside(x, i) ==> i == a || i == b
    ensures StageOf(x', a) == StageOf(x, a) && (forall i :: Inside(x', i) ==> i == a || i == b)
  {
    forall i ensures Inside(x', i) ==> i == a || i == b {
      assert i != b ==> StageOf(x', i) == StageOf(x, i);
      assert Inside(x, i) ==> i == a || i == b;
    }
  }

  lemma SecondMisses(c: Config, moves: seq<Move>, a: Job, b: Job, list: seq<nat>) returns (more: seq<Move>)
    requires Valid(c) && LoadedFirst(c, moves, a, b, list) && b.tx !in ListOf(Reached(c, moves), CacheOf(c, b))
    ensures Possible(c, more) && moves <= more && Trace(c, more) == Trace(c, moves)
    ensures VerifiedBy(c, more) == VerifiedBy(c, moves) && Reached(c, more).state == Reached(c, moves).state
    ensures StageOf(Reached(c, more), a) == Loaded(list) && StageOf(Reached(c, more), b).Missed?
    ensures forall i :: Inside(Reached(c, more), i) ==> i == a || i == b
  {
    var x := Reached(c, moves);
    NotInside(x, a, b);
    ScanMisses(c, x, b);
    more := MakeMove(c, moves, Scan(b));
    FirstStays(x, Reached(c, more), a, b);
  }

  /** The second scans and loads, too. */
  lemma SecondLoads(c: Config, moves: seq<Move>, a: Job, b: Job, list: seq<nat>) returns (more: seq<Move>)
    requires Valid(c) && LoadedFirst(c, moves, a, b, list) && b.tx !in ListOf(Reached(c, moves), CacheOf(c, b))
    ensures Possible(c, more) && moves <= more && Trace(c, more) == Trace(c, moves)
    ensures VerifiedBy(c, more) == VerifiedBy(c, moves) && Reached(c, more).state == Reached(c, moves).state
    ensures StageOf(Reached(c, more), a) == Loaded(list) && StageOf(Reached(c, more), b).Loaded?
    ensures forall i :: Inside(Reached(c, more), i) ==> i == a || i == b
  {
    var m1 := SecondMisses(c, moves, a, b, list);
    LoadsList(c, Reached(c, m1), b);
    more := MakeMove(c, m1, Load(b));
    StaysAgain(Reached(c, m1), Reached(c, more), a, b);
  }

  /** The second makes its whole check meanwhile. */
  lemma SecondStores(c: Config, moves: seq<Move>, a: Job, b: Job, list: seq<nat>) returns (more: seq<Move>)
    requires Valid(c) && LoadedFirst(c, moves, a, b, list) && b.tx !in ListOf(Reached(c, moves), CacheOf(c, b))
    ensures Possible(c, more) && moves <= more && Trace(c, more) == Trace(c, moves) + [CheckLabel(b, false)]
    ensures VerifiedBy(c, more) == VerifiedBy(c, moves) + [TargetOf(c, b)]
    ensures StepTo(c, Reached(c, moves).state, CheckLabel(b, false), Reached(c, more).state)
    ensures OnlyInside(Reached(c, more), a) && StageOf(Reached(c, more), a) == Loaded(list)
  {
    var m2 := SecondLoads(c, moves, a, b, list);
    StoresList(c, Reached(c, m2), b);
    more := MakeMove(c, m2, Store(b));
    StaysAgain(Reached(c, m2), Reached(c, more), a, b);
  }

  /** The step of one goroutine's first check leaves both at a check. */
  lemma BothStayAtCheck(c: Config, s: State, a: Job, b: Job)
    requires Inv(c, s) && AtCheck(c, s, a) && AtCheck(c, s, b) && a != b && b.EndorseJob? && PcOf(c, s, b) == Working(1)
    requires Enabled(c, s, CheckLabel(b, false))
    ensures var s' := Apply(c, s, CheckLabel(b, false));
      Shape(c, s') && AtCheck(c, s', a) && AtCheck(c, s', b) && PcOf(c, s', a) == PcOf(c, s, a)
  {
    CheckLeavesOthers(c, s, b, false, a);
  }

  lemma FirstStores(c: Config, moves: seq<Move>, a: Job, b: Job, list: seq<nat>) returns (more: seq<Move>)
    requires Valid(c) && LoadedFirst(c, moves, a, b, list)
    ensures Possible(c, more) && moves <= more && Trace(c, more) == Trace(c, moves) + [CheckLabel(a, false)]
    ensures VerifiedBy(c, more) == VerifiedBy(c, moves) + [TargetOf(c, a)]
    ensures StepTo(c, Reached(c, moves).state, CheckLabel(a, false), Reached(c, more).state)
    ensures Quiet(Reached(c, more)) && ListOf(Reached(c, more), CacheOf(c, a)) == list + [a.tx]
  {
    StoresList(c, Reached(c, moves), a);
    more := MakeMove(c, moves, Store(a));
    OnlyStays(c, Reached(c, moves), Reached(c, more), a);
  }

  lemma CheckIsNoTick(run: Run, j: Job)
    ensures Ticks(run + [CheckLabel(j, false)]) == Ticks(run)
  {
    R.OneMore(run, CheckLabel(j, false));
  }

  /** Two endorse goroutines of one peer before their first check, neither key verified there yet. */
  ghost predicate Clashing(c: Config, moves: seq<Move>, a: Job, b: Job) {
    && c.peers >= 1 && Calm(c, moves) && Shape(c, Reached(c, moves).state)
    && a.EndorseJob? && b.EndorseJob? && a != b && CacheOf(c, a) == CacheOf(c, b)
    && AtCheck(c, Reached(c, moves).state, a) && AtCheck(c, Reached(c, moves).state, b)
    && PcOf(c, Reached(c, moves).state, a) == PcOf(c, Reached(c, moves).state, b) == Working(1)
    && TargetOf(c, a) !in VerifiedBy(c, moves) && TargetOf(c, b) !in VerifiedBy(c, moves)
  }

  /** The first loads, the second appends, the first stores: the second's key is gone. */
  lemma LoseAppend(c: Config, moves: seq<Move>, a: Job, b: Job) returns (more: seq<Move>)
    requires Valid(c) && Clashing(c, moves, a, b)
    ensures Calm(c, more) && Shape(c, Reached(c, more).state) && AtCheck(c, Reached(c, more).state, b)
    ensures ListOf(Reached(c, more), CacheOf(c, b)) == ListOf(Reached(c, moves), CacheOf(c, b)) + [a.tx]
    ensures VerifiedBy(c, more) == VerifiedBy(c, moves) + [TargetOf(c, b)] + [TargetOf(c, a)]
  {
    var list := ListOf(Reached(c, moves), CacheOf(c, a));
    NotCached(c, moves, a);
    NotCached(c, moves, b);
    var m1 := MissAndLoad(c, moves, a);
    var m2 := SecondStores(c, m1, a, b, list);
    ReachedInv(c, m1);
    BothStayAtCheck(c, Reached(c, m1).state, a, b);
    CheckIsNoTick(Trace(c, m1), b);
    more := FirstStores(c, m2, a, b, list);
    ReachedInv(c, m2);
    CheckLeavesOthers(c, Reached(c, m2).state, a, false, b);
    CheckIsNoTick(Trace(c, m2), a);
  }

  lemma TwiceIsRepeat(verified: seq<Target>, t: Target, u: Target)
    ensures !NoRepeat(verified + [t] + [t])
    ensures !NoRepeat(verified + [t] + [u] + [t])
  {
    var two, three := verified + [t] + [t], verified + [t] + [u] + [t];
    assert two[|verified|] == two[|verified| + 1];
    assert three[|verified|] == three[|verified| + 2];
  }

  /** So one of the two transactions is verified twice for that cache. */
  lemma VerifyTwice(c: Config, moves: seq<Move>, a: Job, b: Job) returns (more: seq<Move>)
    requires Valid(c) && Clashing(c, moves, a, b)
    ensures Calm(c, more) && !NoRepeat(VerifiedBy(c, more))
  {
    TwiceIsRepeat(VerifiedBy(c, moves), TargetOf(c, b), TargetOf(c, a));
    NotCached(c, moves, b);
    more := LoseAppend(c, moves, a, b);
    if a.tx != b.tx {
      var m1 := more;
      more := MissAtOnce(c, m1, b);
      CheckIsNoTick(Trace(c, m1), b);
    }
  }

  lemma RepeatStays(verified: seq<Target>, more: seq<Target>)
    requires verified <= more && !NoRepeat(verified)
    ensures !NoRepeat(more)
  {
  }

  lemma ReadyClash(c: Config, moves: seq<Move>, i: Job, j: Job, a: Job, b: Job)
    requires Valid(c) && Together(c, i, j) && Held(c, moves, i, j) && a != b
    requires Ready(c, Reached(c, moves).state, i, j, a) && Ready(c, Reached(c, moves).state, i, j, b)
    ensures Clashing(c, moves, a, b)
  {
    CalmIsSafe(c, moves);
  }

  /** With two permits and endorsements that can be under way together, some simulation verifies more than it must. */
  lemma CrowdVerifiesMore(c: Config) returns (moves: seq<Move>)
    requires Valid(c) && c.concurrentEndorsements >= 2 && Crowded(c)
    ensures Finishes(c, moves) && VerificationsOf(c, moves) > Fewest(c)
  {
    var i, j :| Together(c, i, j);
    StartIsHeld(c, i, j);
    var ready := HoldOn(c, [], i, j);
    var a, b :| Ready(c, Reached(c, ready).state, i, j, a) && Ready(c, Reached(c, ready).state, i, j, b) && a != b;
    ReadyClash(c, ready, i, j, a, b);
    var twice := VerifyTwice(c, ready, a, b);
    moves := FinishCalmly(c, twice);
    Prefix(c, twice, moves);
    RepeatStays(VerifiedBy(c, twice), VerifiedBy(c, moves));
    CachedBounds(c, moves);
  }

  /** Every finished simulation makes exactly N(1 + P + min(E, P)) verifications if and only if peers grant one
      endorsement permit, or no two endorsements can be under way together at one peer. */
  lemma ExactIff(c: Config)
    requires Valid(c)
    ensures (forall moves :: Finishes(c, moves) ==> VerificationsOf(c, moves) == Fewest(c)) <==> Alone(c)
  {
    if Alone(c) {
      forall moves | Finishes(c, moves) ensures VerificationsOf(c, moves) == Fewest(c) {
        AloneIsExact(c, moves);
      }
    } else {
      var moves := CrowdVerifiesMore(c);
      assert Finishes(c, moves);
    }
  }
}
