/** The identity caches inside the protocol.  A check scans its cache; after a miss it verifies, loads the list and
    stores it with its own key appended, and other goroutines may act between any two of these steps.  Keys of
    different transactions are different, so the number of the transaction stands for its key. */
module Caching {
  import opened Sums
  import opened Events
  import opened Protocol
  import opened Accounts
  import opened Invariant
  import opened Runs
  import opened Verifications
  import P = Preservation
  import C = Conservation

  /** Each peer has one cache for each operation. */
  datatype Cache = Cache(op: Operation, peer: nat)

  /** Where a goroutine is in its check: not in one, past a scan that missed, or past the load of its append. */
  datatype Stage = Outside | Missed | Loaded(seen: seq<nat>)

  datatype System = System(state: State, caches: map<Cache, seq<nat>>, stages: map<Job, Stage>)

  /** A step of the protocol that is no check, or a step of a goroutine's check. */
  datatype Move = Plain(step: Label) | Scan(job: Job) | Load(job: Job) | Store(job: Job)

  function ListOf(x: System, k: Cache): seq<nat> {
    if k in x.caches then x.caches[k] else []
  }

  function StageOf(x: System, j: Job): Stage {
    if j in x.stages then x.stages[j] else Outside
  }

  function CacheOf(c: Config, j: Job): Cache
    requires c.peers >= 1
  {
    Cache(TargetOf(c, j).op, TargetOf(c, j).peer)
  }

  predicate Checking(j: Job, pc: JobPc) {
    match j
    case EndorseJob(_, _) => pc == Working(1) || pc == Working(2)
    case OrderJob(_) => pc == Working(0)
    case ValidateJob(_, _) => pc == Working(2)
  }

  /** The goroutine's next piece of work is an identity check. */
  ghost predicate AtCheck(c: Config, s: State, j: Job)
    requires Shape(c, s)
  {
    s.crash == NoCrash && IsJob(c, s, j) && Checking(j, PcOf(c, s, j))
  }

  function CheckLabel(j: Job, hit: bool): Label {
    match j
    case EndorseJob(n, slot) => Label.Endorser(n, slot, hit)
    case OrderJob(n) => Label.Orderer(n, hit)
    case ValidateJob(n, p) => Label.Validator(n, p, hit)
  }

  lemma CheckIsLook(c: Config, s: State, j: Job, hit: bool)
    requires Shape(c, s) && AtCheck(c, s, j)
    ensures Enabled(c, s, CheckLabel(j, hit)) && LookOf(c, s, CheckLabel(j, hit)) == Look(TargetOf(c, j), hit)
  {
  }

  ghost predicate Can(c: Config, x: System, m: Move) {
    Shape(c, x.state) &&
    match m
    case Plain(l) => Enabled(c, x.state, l) && LookOf(c, x.state, l).NoLook?
    case Scan(j) => AtCheck(c, x.state, j) && StageOf(x, j).Outside?
    case Load(j) => AtCheck(c, x.state, j) && StageOf(x, j).Missed?
    case Store(j) => AtCheck(c, x.state, j) && StageOf(x, j).Loaded?
  }

  /** The protocol's label of a move, if it completes a step of the protocol: a check is over when its scan hits or
      its append has been stored. */
  ghost function Completes(c: Config, x: System, m: Move): Run
    requires Can(c, x, m)
  {
    match m
    case Plain(l) => [l]
    case Scan(j) => if j.tx in ListOf(x, CacheOf(c, j)) then [CheckLabel(j, true)] else []
    case Load(_) => []
    case Store(j) => [CheckLabel(j, false)]
  }

  ghost function Next(c: Config, x: System, m: Move): System
    requires Can(c, x, m)
  {
    match m
    case Plain(l) => x.(state := Apply(c, x.state, l))
    case Scan(j) =>
      if j.tx in ListOf(x, CacheOf(c, j)) then
        CheckIsLook(c, x.state, j, true);
        x.(state := Apply(c, x.state, CheckLabel(j, true)))
      else x.(stages := x.stages[j := Missed])
    case Load(j) => x.(stages := x.stages[j := Loaded(ListOf(x, CacheOf(c, j)))])
    case Store(j) =>
      CheckIsLook(c, x.state, j, false);
      System(Apply(c, x.state, CheckLabel(j, false)),
             x.caches[CacheOf(c, j) := StageOf(x, j).seen + [j.tx]],
             x.stages[j := Outside])
  }

  // ---- runs

  datatype Performance = Broken | Reaches(system: System)

  function Before(moves: seq<Move>): seq<Move>
    requires moves != []
  {
    moves[..|moves| - 1]
  }

  function Final(moves: seq<Move>): Move
    requires moves != []
  {
    moves[|moves| - 1]
  }

  function Start(c: Config): System {
    System(Init(c), map[], map[])
  }

  ghost function Perform(c: Config, moves: seq<Move>): Performance {
    if moves == [] then Reaches(Start(c))
    else
      match Perform(c, Before(moves))
      case Broken => Broken
      case Reaches(x) => if Can(c, x, Final(moves)) then Reaches(Next(c, x, Final(moves))) else Broken
  }

  ghost predicate Possible(c: Config, moves: seq<Move>) {
    Perform(c, moves).Reaches?
  }

  ghost function Reached(c: Config, moves: seq<Move>): System
    requires Possible(c, moves)
  {
    Perform(c, moves).system
  }

  /** The run of the protocol that these moves make up. */
  ghost function Trace(c: Config, moves: seq<Move>): Run
    requires Possible(c, moves)
  {
    if moves == [] then []
    else Trace(c, Before(moves)) + Completes(c, Reached(c, Before(moves)), Final(moves))
  }

  lemma FeasibleStep(c: Config, run: Run, l: Label)
    requires Feasible(c, run) && Shape(c, After(c, run)) && Enabled(c, After(c, run), l)
    ensures Feasible(c, run + [l]) && After(c, run + [l]) == Apply(c, After(c, run), l)
  {
    var more := run + [l];
    assert Front(more) == run && Last(more) == l;
    assert Play(c, more) == At(Apply(c, After(c, run), l));
  }

  lemma CompletesStep(c: Config, x: System, m: Move, run: Run)
    requires Can(c, x, m) && Feasible(c, run) && After(c, run) == x.state
    ensures Feasible(c, run + Completes(c, x, m)) && After(c, run + Completes(c, x, m)) == Next(c, x, m).state
  {
    match m
    case Plain(l) => FeasibleStep(c, run, l);
    case Scan(j) =>
      if j.tx in ListOf(x, CacheOf(c, j)) {
        CheckIsLook(c, x.state, j, true);
        FeasibleStep(c, run, CheckLabel(j, true));
      } else {
        assert run + [] == run;
      }
    case Load(_) => assert run + [] == run;
    case Store(j) =>
      CheckIsLook(c, x.state, j, false);
      FeasibleStep(c, run, CheckLabel(j, false));
  }

  /** It is a run of the protocol, and leads to the same state. */
  lemma {:induction false} TraceIsFeasible(c: Config, moves: seq<Move>)
    requires Possible(c, moves)
    ensures Feasible(c, Trace(c, moves)) && After(c, Trace(c, moves)) == Reached(c, moves).state
  {
    if moves != [] {
      TraceIsFeasible(c, Before(moves));
      CompletesStep(c, Reached(c, Before(moves)), Final(moves), Trace(c, Before(moves)));
    }
  }

  lemma ReachedInv(c: Config, moves: seq<Move>)
    requires Valid(c) && Possible(c, moves)
    ensures Inv(c, Reached(c, moves).state)
  {
    TraceIsFeasible(c, moves);
    RunInv(c, Trace(c, moves));
  }

  // ---- what is in a cache was verified

  ghost predicate Backed(verified: seq<Target>, k: Cache, list: seq<nat>) {
    forall n :: n in list ==> Target(k.op, k.peer, n) in verified
  }

  /** Every list, in a cache or loaded, holds verified keys only. */
  ghost predicate AllBacked(c: Config, x: System, verified: seq<Target>)
    requires c.peers >= 1
  {
    && (forall k :: Backed(verified, k, ListOf(x, k)))
    && (forall j :: StageOf(x, j).Loaded? ==> Backed(verified, CacheOf(c, j), StageOf(x, j).seen))
  }

  function VerifiedIn(look: Look): seq<Target> {
    match look
    case Look(t, false) => [t]
    case _ => []
  }

  /** What a move adds to the verified checks. */
  function Adds(c: Config, m: Move): seq<Target>
    requires c.peers >= 1
  {
    match m
    case Store(j) => [TargetOf(c, j)]
    case _ => []
  }

  lemma VerifiedLast(c: Config, run: Run, l: Label)
    requires Feasible(c, run + [l]) && Feasible(c, run) && Shape(c, After(c, run)) && Enabled(c, After(c, run), l)
    ensures Verified(c, run + [l]) == Verified(c, run) + VerifiedIn(LookOf(c, After(c, run), l))
  {
    var more := run + [l];
    assert Front(more) == run && Last(more) == l;
  }

  lemma VerifiedSnoc(c: Config, run: Run, l: Label)
    requires Feasible(c, run) && Shape(c, After(c, run)) && Enabled(c, After(c, run), l)
    ensures Feasible(c, run + [l])
    ensures Verified(c, run + [l]) == Verified(c, run) + VerifiedIn(LookOf(c, After(c, run), l))
  {
    FeasibleStep(c, run, l);
    VerifiedLast(c, run, l);
  }

  lemma MoveVerifies(c: Config, x: System, m: Move, run: Run)
    requires Can(c, x, m) && Feasible(c, run) && After(c, run) == x.state
    ensures Feasible(c, run + Completes(c, x, m))
    ensures Verified(c, run + Completes(c, x, m)) == Verified(c, run) + Adds(c, m)
  {
    match m
    case Plain(l) => VerifiedSnoc(c, run, l);
    case Scan(j) =>
      if j.tx in ListOf(x, CacheOf(c, j)) {
        CheckIsLook(c, x.state, j, true);
        VerifiedSnoc(c, run, CheckLabel(j, true));
      } else {
        assert run + [] == run;
      }
    case Load(_) => assert run + [] == run;
    case Store(j) =>
      CheckIsLook(c, x.state, j, false);
      VerifiedSnoc(c, run, CheckLabel(j, false));
  }

  /** The checks that these moves have verified. */
  ghost function VerifiedBy(c: Config, moves: seq<Move>): seq<Target>
    requires Possible(c, moves)
  {
    TraceIsFeasible(c, moves);
    Verified(c, Trace(c, moves))
  }

  lemma VerifiedByStep(c: Config, moves: seq<Move>)
    requires Valid(c) && Possible(c, moves) && moves != []
    ensures VerifiedBy(c, moves) == VerifiedBy(c, Before(moves)) + Adds(c, Final(moves))
  {
    TraceIsFeasible(c, Before(moves));
    MoveVerifies(c, Reached(c, Before(moves)), Final(moves), Trace(c, Before(moves)));
  }

  lemma BackedGrows(verified: seq<Target>, more: seq<Target>, k: Cache, list: seq<nat>)
    requires Backed(verified, k, list)
    ensures Backed(verified + more, k, list)
  {
  }

  lemma MoveKeepsBacked(c: Config, x: System, m: Move, verified: seq<Target>)
    requires c.peers >= 1 && Can(c, x, m) && AllBacked(c, x, verified)
    ensures AllBacked(c, Next(c, x, m), verified + Adds(c, m))
  {
    var x' := Next(c, x, m);
    forall k ensures Backed(verified + Adds(c, m), k, ListOf(x', k)) {
      BackedGrows(verified, Adds(c, m), k, ListOf(x, k));
      if m.Store? && k == CacheOf(c, m.job) {
        BackedGrows(verified, Adds(c, m), k, StageOf(x, m.job).seen);
      }
    }
    forall j | StageOf(x', j).Loaded? ensures Backed(verified + Adds(c, m), CacheOf(c, j), StageOf(x', j).seen) {
      if m == Load(j) {
        BackedGrows(verified, Adds(c, m), CacheOf(c, j), ListOf(x, CacheOf(c, j)));
      } else {
        BackedGrows(verified, Adds(c, m), CacheOf(c, j), StageOf(x, j).seen);
      }
    }
  }

  lemma {:induction false} CachesAreBacked(c: Config, moves: seq<Move>)
    requires Valid(c) && Possible(c, moves)
    ensures AllBacked(c, Reached(c, moves), VerifiedBy(c, moves))
  {
    if moves != [] {
      CachesAreBacked(c, Before(moves));
      VerifiedByStep(c, moves);
      MoveKeepsBacked(c, Reached(c, Before(moves)), Final(moves), VerifiedBy(c, Before(moves)));
    }
  }

  function Same(n: nat): nat {
    n
  }

  lemma EarnedLast(c: Config, run: Run, l: Label)
    requires Feasible(c, run + [l]) && Feasible(c, run) && Shape(c, After(c, run)) && Enabled(c, After(c, run), l)
    requires Earned(c, run, Same)
    requires match LookOf(c, After(c, run), l) case Look(t, true) => t in Verified(c, run) case _ => true
    ensures Earned(c, run + [l], Same)
  {
    var more := run + [l];
    assert Front(more) == run && Last(more) == l;
  }

  lemma EarnedSnoc(c: Config, run: Run, l: Label)
    requires Feasible(c, run) && Shape(c, After(c, run)) && Enabled(c, After(c, run), l) && Earned(c, run, Same)
    requires match LookOf(c, After(c, run), l) case Look(t, true) => t in Verified(c, run) case _ => true
    ensures Feasible(c, run + [l]) && Earned(c, run + [l], Same)
  {
    FeasibleStep(c, run, l);
    EarnedLast(c, run, l);
  }

  lemma MoveIsEarned(c: Config, x: System, m: Move, run: Run)
    requires c.peers >= 1 && Can(c, x, m) && Feasible(c, run) && After(c, run) == x.state
    requires Earned(c, run, Same) && AllBacked(c, x, Verified(c, run))
    ensures Feasible(c, run + Completes(c, x, m)) && Earned(c, run + Completes(c, x, m), Same)
  {
    match m
    case Plain(l) => EarnedSnoc(c, run, l);
    case Scan(j) =>
      if j.tx in ListOf(x, CacheOf(c, j)) {
        CheckIsLook(c, x.state, j, true);
        assert Backed(Verified(c, run), CacheOf(c, j), ListOf(x, CacheOf(c, j)));
        EarnedSnoc(c, run, CheckLabel(j, true));
      } else {
        assert run + [] == run;
      }
    case Load(_) => assert run + [] == run;
    case Store(j) =>
      CheckIsLook(c, x.state, j, false);
      EarnedSnoc(c, run, CheckLabel(j, false));
  }

  /** Hits of the caches are hits that the protocol's runs may have. */
  lemma {:induction false} TraceIsEarned(c: Config, moves: seq<Move>)
    requires Valid(c) && Possible(c, moves)
    ensures Feasible(c, Trace(c, moves)) && Earned(c, Trace(c, moves), Same)
  {
    TraceIsFeasible(c, moves);
    if moves != [] {
      TraceIsEarned(c, Before(moves));
      TraceIsFeasible(c, Before(moves));
      CachesAreBacked(c, Before(moves));
      MoveIsEarned(c, Reached(c, Before(moves)), Final(moves), Trace(c, Before(moves)));
    }
  }

  // ---- a goroutine outside the loops moves by its own steps only

  predicate IsOwn(l: Label, j: Job) {
    exists hit :: l == CheckLabel(j, hit)
  }

  predicate UnderWay(pc: JobPc) {
    !pc.Unsent? && !InLoop(pc)
  }

  lemma SendsNew(c: Config, t: Tx, g: Grant, epoch: nat)
    requires TxInv(c, t, g, epoch)
    ensures t.user.Sending? ==> t.user.slot < |t.endorse| && t.endorse[t.user.slot].Unsent?
    ensures t.user.Ordering? ==> t.order.Unsent?
  {
  }

  lemma UserLeavesJob(c: Config, s: State, n: nat, j: Job)
    requires Inv(c, s) && UserCan(c, s, n) && IsJob(c, s, j) && UnderWay(PcOf(c, s, j)) && Shape(c, UserStep(c, s, n))
    ensures IsJob(c, UserStep(c, s, n), j) && PcOf(c, UserStep(c, s, n), j) == PcOf(c, s, j)
  {
    SendsNew(c, s.txs[n], s.grants[c.users + n], s.epoch);
    UserLeaves(c, s, n, j);
  }

  lemma UserLeaves(c: Config, s: State, n: nat, j: Job)
    requires Shape(c, s) && UserCan(c, s, n) && IsJob(c, s, j) && UnderWay(PcOf(c, s, j)) && Shape(c, UserStep(c, s, n))
    requires s.txs[n].user.Sending? ==> s.txs[n].endorse[s.txs[n].user.slot].Unsent?
    requires s.txs[n].user.Ordering? ==> s.txs[n].order.Unsent?
    ensures IsJob(c, UserStep(c, s, n), j) && PcOf(c, UserStep(c, s, n), j) == PcOf(c, s, j)
  {
    if s.txs[n].user.Sending? {
    } else if s.txs[n].user.Ordering? {
    } else {
      UserKeepsJobs(c, s, n);
    }
  }

  lemma OrdererLeavesJob(c: Config, s: State, n: nat, hit: bool, j: Job)
    requires Inv(c, s) && OrdererCan(c, s, n) && IsJob(c, s, j) && UnderWay(PcOf(c, s, j)) && j != OrderJob(n)
    requires Shape(c, OrdererStep(c, s, n, hit))
    ensures IsJob(c, OrdererStep(c, s, n, hit), j) && PcOf(c, OrdererStep(c, s, n, hit), j) == PcOf(c, s, j)
  {
    C.OrdererReady(c, s, n);
    OrdererLeaves(c, s, n, hit, j);
  }

  lemma OrdererLeaves(c: Config, s: State, n: nat, hit: bool, j: Job)
    requires Shape(c, s) && OrdererCan(c, s, n) && IsJob(c, s, j) && UnderWay(PcOf(c, s, j)) && j != OrderJob(n)
    requires Shape(c, OrdererStep(c, s, n, hit))
    requires var t := s.txs[n]; t.order.at > 0 ==> t.validate[t.order.at - 1].Unsent?
    ensures IsJob(c, OrdererStep(c, s, n, hit), j) && PcOf(c, OrdererStep(c, s, n, hit), j) == PcOf(c, s, j)
  {
  }

  lemma LoopLeavesJob(c: Config, s: State, p: nat, j: Job)
    requires Shape(c, s) && LoopCan(c, s, p) && IsJob(c, s, j) && UnderWay(PcOf(c, s, j)) && Shape(c, LoopStep(c, s, p))
    ensures IsJob(c, LoopStep(c, s, p), j) && PcOf(c, LoopStep(c, s, p), j) == PcOf(c, s, j)
  {
    P.LoopFrameOf(c, s, p);
    OtherJobsStay(c, s, LoopStep(c, s, p), p, j);
  }

  lemma WorkersLeaveJob(c: Config, s: State, l: Label, j: Job)
    requires Shape(c, s) && Enabled(c, s, l) && IsJob(c, s, j) && !IsOwn(l, j) && (l.Endorser? || l.Validator?)
    requires Shape(c, Apply(c, s, l))
    ensures IsJob(c, Apply(c, s, l), j) && PcOf(c, Apply(c, s, l), j) == PcOf(c, s, j)
  {
    match l
    case Endorser(n, slot, hit) =>
      assert l == CheckLabel(EndorseJob(n, slot), hit);
      EndorserLeaves(c, s, n, slot, hit, j);
    case Validator(n, p, hit) =>
      assert l == CheckLabel(ValidateJob(n, p), hit);
      ValidatorLeaves(c, s, n, p, hit, j);
  }

  lemma EndorserLeaves(c: Config, s: State, n: nat, slot: nat, hit: bool, j: Job)
    requires Shape(c, s) && EndorserCan(c, s, n, slot) && IsJob(c, s, j) && j != EndorseJob(n, slot)
    requires Shape(c, EndorserStep(c, s, n, slot, hit))
    ensures IsJob(c, EndorserStep(c, s, n, slot, hit), j)
    ensures PcOf(c, EndorserStep(c, s, n, slot, hit), j) == PcOf(c, s, j)
  {
    match s.txs[n].endorse[slot] { case _ => }
  }

  lemma ValidatorLeaves(c: Config, s: State, n: nat, p: nat, hit: bool, j: Job)
    requires Shape(c, s) && ValidatorCan(c, s, n, p) && IsJob(c, s, j) && j != ValidateJob(n, p)
    requires Shape(c, ValidatorStep(c, s, n, p, hit))
    ensures IsJob(c, ValidatorStep(c, s, n, p, hit), j)
    ensures PcOf(c, ValidatorStep(c, s, n, p, hit), j) == PcOf(c, s, j)
  {
    match s.txs[n].validate[p] { case _ => }
  }

  lemma GoroutinesLeaveJob(c: Config, s: State, l: Label, j: Job)
    requires Inv(c, s) && Enabled(c, s, l) && IsJob(c, s, j) && UnderWay(PcOf(c, s, j)) && !IsOwn(l, j)
    requires Shape(c, Apply(c, s, l)) && (l.Endorser? || l.Orderer? || l.Validator?)
    ensures IsJob(c, Apply(c, s, l), j) && PcOf(c, Apply(c, s, l), j) == PcOf(c, s, j)
  {
    if l.Orderer? {
      assert l == CheckLabel(OrderJob(l.tx), l.hit);
      OrdererLeavesJob(c, s, l.tx, l.hit, j);
    } else {
      WorkersLeaveJob(c, s, l, j);
    }
  }

  lemma ControlLeavesJob(c: Config, s: State, l: Label, j: Job)
    requires Shape(c, s) && Enabled(c, s, l) && IsJob(c, s, j) && Shape(c, Apply(c, s, l))
    requires l.Main? || l.Authority? || l.Granter? || l.Tick?
    ensures IsJob(c, Apply(c, s, l), j) && PcOf(c, Apply(c, s, l), j) == PcOf(c, s, j)
  {
  }

  /** Once it is past its loop, no step but its own moves a goroutine. */
  lemma OthersLeaveJob(c: Config, s: State, l: Label, j: Job)
    requires Inv(c, s) && Enabled(c, s, l) && IsJob(c, s, j) && UnderWay(PcOf(c, s, j)) && !IsOwn(l, j)
    requires Shape(c, Apply(c, s, l))
    ensures IsJob(c, Apply(c, s, l), j) && PcOf(c, Apply(c, s, l), j) == PcOf(c, s, j)
  {
    if l.User? {
      UserLeavesJob(c, s, l.tx, j);
    } else if l.Loop? {
      LoopLeavesJob(c, s, l.peer, j);
    } else if l.Endorser? || l.Orderer? || l.Validator? {
      GoroutinesLeaveJob(c, s, l, j);
    } else {
      ControlLeavesJob(c, s, l, j);
    }
  }

  lemma EndorserStaysChecked(c: Config, s: State, n: nat, slot: nat, hit: bool)
    requires Shape(c, s) && EndorserCan(c, s, n, slot) && Checked(EndorseJob(n, slot), s.txs[n].endorse[slot])
    requires Shape(c, EndorserStep(c, s, n, slot, hit))
    ensures n < |EndorserStep(c, s, n, slot, hit).txs|
    ensures Checked(EndorseJob(n, slot), EndorserStep(c, s, n, slot, hit).txs[n].endorse[slot])
  {
    match s.txs[n].endorse[slot] { case _ => }
  }

  lemma ValidatorStaysChecked(c: Config, s: State, n: nat, p: nat, hit: bool)
    requires Shape(c, s) && ValidatorCan(c, s, n, p) && Checked(ValidateJob(n, p), s.txs[n].validate[p])
    requires Shape(c, ValidatorStep(c, s, n, p, hit))
    ensures n < |ValidatorStep(c, s, n, p, hit).txs|
    ensures Checked(ValidateJob(n, p), ValidatorStep(c, s, n, p, hit).txs[n].validate[p])
  {
    match s.txs[n].validate[p] { case _ => }
  }

  lemma OwnStaysChecked(c: Config, s: State, l: Label, j: Job)
    requires Shape(c, s) && Enabled(c, s, l) && IsJob(c, s, j) && Checked(j, PcOf(c, s, j)) && IsOwn(l, j)
    requires Shape(c, Apply(c, s, l))
    ensures IsJob(c, Apply(c, s, l), j) && Checked(j, PcOf(c, Apply(c, s, l), j))
  {
    match l
    case Endorser(n, slot, hit) => EndorserStaysChecked(c, s, n, slot, hit);
    case Validator(n, p, hit) => ValidatorStaysChecked(c, s, n, p, hit);
    case Orderer(_, _) =>
  }

  lemma CheckedStays(c: Config, s: State, l: Label, j: Job)
    requires Inv(c, s) && Enabled(c, s, l) && IsJob(c, s, j) && Checked(j, PcOf(c, s, j)) && Shape(c, Apply(c, s, l))
    ensures IsJob(c, Apply(c, s, l), j) && Checked(j, PcOf(c, Apply(c, s, l), j))
  {
    if IsOwn(l, j) {
      OwnStaysChecked(c, s, l, j);
    } else {
      OthersLeaveChecked(c, s, l, j);
    }
  }

  lemma OthersLeaveChecked(c: Config, s: State, l: Label, j: Job)
    requires Inv(c, s) && Enabled(c, s, l) && IsJob(c, s, j) && Checked(j, PcOf(c, s, j)) && Shape(c, Apply(c, s, l))
    requires !IsOwn(l, j)
    ensures IsJob(c, Apply(c, s, l), j) && Checked(j, PcOf(c, Apply(c, s, l), j))
  {
    OthersLeaveJob(c, s, l, j);
  }

  // ---- goroutines inside a check stay at it

  predicate Inside(x: System, j: Job) {
    !StageOf(x, j).Outside?
  }

  ghost predicate Parked(c: Config, x: System)
    requires Shape(c, x.state)
  {
    forall j :: Inside(x, j) ==> IsJob(c, x.state, j) && Checking(j, PcOf(c, x.state, j))
  }

  lemma StepLeavesCheck(c: Config, s: State, l: Label, j: Job)
    requires Inv(c, s) && Enabled(c, s, l) && IsJob(c, s, j) && Checking(j, PcOf(c, s, j)) && !IsOwn(l, j)
    ensures Shape(c, Apply(c, s, l)) && IsJob(c, Apply(c, s, l), j) && PcOf(c, Apply(c, s, l), j) == PcOf(c, s, j)
  {
    C.KeepsShape(c, s, l);
    OthersLeaveCheck(c, s, l, j);
  }

  lemma OthersLeaveCheck(c: Config, s: State, l: Label, j: Job)
    requires Inv(c, s) && Enabled(c, s, l) && IsJob(c, s, j) && Checking(j, PcOf(c, s, j)) && !IsOwn(l, j)
    requires Shape(c, Apply(c, s, l))
    ensures IsJob(c, Apply(c, s, l), j) && PcOf(c, Apply(c, s, l), j) == PcOf(c, s, j)
  {
    OthersLeaveJob(c, s, l, j);
  }

  lemma NotOwn(i: Job, hit: bool, j: Job)
    requires i != j
    ensures !IsOwn(CheckLabel(i, hit), j)
  {
  }

  lemma CheckLeavesOthers(c: Config, s: State, i: Job, hit: bool, j: Job)
    requires Inv(c, s) && AtCheck(c, s, i) && i != j && IsJob(c, s, j) && Checking(j, PcOf(c, s, j))
    ensures Enabled(c, s, CheckLabel(i, hit))
    ensures Shape(c, Apply(c, s, CheckLabel(i, hit))) && IsJob(c, Apply(c, s, CheckLabel(i, hit)), j)
    ensures PcOf(c, Apply(c, s, CheckLabel(i, hit)), j) == PcOf(c, s, j)
  {
    CheckIsLook(c, s, i, hit);
    NotOwn(i, hit, j);
    StepLeavesCheck(c, s, CheckLabel(i, hit), j);
  }

  lemma PlainLeavesChecks(c: Config, s: State, l: Label, j: Job)
    requires Inv(c, s) && Enabled(c, s, l) && LookOf(c, s, l).NoLook? && IsJob(c, s, j) && Checking(j, PcOf(c, s, j))
    ensures Shape(c, Apply(c, s, l)) && IsJob(c, Apply(c, s, l), j) && PcOf(c, Apply(c, s, l), j) == PcOf(c, s, j)
  {
    if hit :| l == CheckLabel(j, hit) {
      CheckIsLook(c, s, j, hit);
    } else {
      StepLeavesCheck(c, s, l, j);
    }
  }

  lemma ScanLeavesParked(c: Config, x: System, i: Job, j: Job)
    requires Inv(c, x.state) && Can(c, x, Scan(i)) && Parked(c, x) && Inside(Next(c, x, Scan(i)), j)
    ensures Shape(c, Next(c, x, Scan(i)).state) && IsJob(c, Next(c, x, Scan(i)).state, j)
    ensures Checking(j, PcOf(c, Next(c, x, Scan(i)).state, j))
  {
    if i.tx in ListOf(x, CacheOf(c, i)) {
      CheckLeavesOthers(c, x.state, i, true, j);
    }
  }

  lemma StoreLeavesParked(c: Config, x: System, i: Job, j: Job)
    requires Inv(c, x.state) && Can(c, x, Store(i)) && Parked(c, x) && Inside(Next(c, x, Store(i)), j)
    ensures Shape(c, Next(c, x, Store(i)).state) && IsJob(c, Next(c, x, Store(i)).state, j)
    ensures Checking(j, PcOf(c, Next(c, x, Store(i)).state, j))
  {
    CheckLeavesOthers(c, x.state, i, false, j);
  }

  lemma MoveLeavesParked(c: Config, x: System, m: Move, j: Job)
    requires Inv(c, x.state) && Can(c, x, m) && Parked(c, x) && Inside(Next(c, x, m), j)
    ensures Shape(c, Next(c, x, m).state) && IsJob(c, Next(c, x, m).state, j)
    ensures Checking(j, PcOf(c, Next(c, x, m).state, j))
  {
    match m
    case Plain(l) => PlainLeavesChecks(c, x.state, l, j);
    case Scan(i) => ScanLeavesParked(c, x, i, j);
    case Load(_) =>
    case Store(i) => StoreLeavesParked(c, x, i, j);
  }

  lemma {:induction false} InsideIsParked(c: Config, moves: seq<Move>)
    requires Valid(c) && Possible(c, moves)
    ensures Shape(c, Reached(c, moves).state) && Parked(c, Reached(c, moves))
  {
    ReachedInv(c, moves);
    if moves != [] {
      InsideIsParked(c, Before(moves));
      ReachedInv(c, Before(moves));
      var x := Reached(c, Before(moves));
      forall j | Inside(Reached(c, moves), j)
        ensures IsJob(c, Reached(c, moves).state, j) && Checking(j, PcOf(c, Reached(c, moves).state, j))
      {
        MoveLeavesParked(c, x, Final(moves), j);
      }
    }
  }

  // ---- the caches of orderings and of validations are asked once for each transaction

  predicate Single(t: Target) {
    t.op.ForOrdering? || t.op.ForValidation?
  }

  function JobFor(t: Target): Job
    requires Single(t)
  {
    if t.op.ForOrdering? then OrderJob(t.tx) else ValidateJob(t.tx, t.peer)
  }

  /** Whoever verified for such a cache is past its check. */
  ghost predicate SinglesChecked(c: Config, s: State, verified: seq<Target>)
    requires Shape(c, s)
  {
    forall t :: t in verified && Single(t) ==> IsJob(c, s, JobFor(t)) && Checked(JobFor(t), PcOf(c, s, JobFor(t)))
  }

  lemma CheckIsChecked(c: Config, s: State, j: Job, hit: bool)
    requires Shape(c, s) && AtCheck(c, s, j) && Enabled(c, s, CheckLabel(j, hit))
    requires Shape(c, Apply(c, s, CheckLabel(j, hit)))
    ensures IsJob(c, Apply(c, s, CheckLabel(j, hit)), j)
    ensures Checked(j, PcOf(c, Apply(c, s, CheckLabel(j, hit)), j))
  {
    match j { case _ => }
  }

  lemma StepKeepsSingle(c: Config, s: State, l: Label, verified: seq<Target>, t: Target)
    requires Inv(c, s) && Enabled(c, s, l) && SinglesChecked(c, s, verified) && t in verified && Single(t)
    ensures Shape(c, Apply(c, s, l)) && IsJob(c, Apply(c, s, l), JobFor(t))
    ensures Checked(JobFor(t), PcOf(c, Apply(c, s, l), JobFor(t)))
  {
    C.KeepsShape(c, s, l);
    CheckedStays(c, s, l, JobFor(t));
  }

  lemma StoreKeepsSingle(c: Config, x: System, j: Job, verified: seq<Target>, t: Target)
    requires Inv(c, x.state) && Can(c, x, Store(j)) && SinglesChecked(c, x.state, verified)
    requires t in verified + [TargetOf(c, j)] && Single(t)
    ensures var s' := Next(c, x, Store(j)).state;
      Shape(c, s') && IsJob(c, s', JobFor(t)) && Checked(JobFor(t), PcOf(c, s', JobFor(t)))
  {
    CheckIsLook(c, x.state, j, false);
    if t in verified {
      StepKeepsSingle(c, x.state, CheckLabel(j, false), verified, t);
    } else {
      OwnIsChecked(c, x.state, j, t);
    }
  }

  lemma OwnIsChecked(c: Config, s: State, j: Job, t: Target)
    requires Inv(c, s) && AtCheck(c, s, j) && Enabled(c, s, CheckLabel(j, false)) && Single(t) && t == TargetOf(c, j)
    ensures var s' := Apply(c, s, CheckLabel(j, false));
      Shape(c, s') && IsJob(c, s', JobFor(t)) && Checked(JobFor(t), PcOf(c, s', JobFor(t)))
  {
    C.KeepsShape(c, s, CheckLabel(j, false));
    CheckIsChecked(c, s, j, false);
  }

  /** After a move, for one target that was verified before it or by it. */
  lemma MoveKeepsSingle(c: Config, x: System, m: Move, verified: seq<Target>, t: Target)
    requires Inv(c, x.state) && Can(c, x, m) && SinglesChecked(c, x.state, verified)
    requires t in verified + Adds(c, m) && Single(t)
    ensures var s' := Next(c, x, m).state;
      Shape(c, s') && IsJob(c, s', JobFor(t)) && Checked(JobFor(t), PcOf(c, s', JobFor(t)))
  {
    match m
    case Plain(l) => StepKeepsSingle(c, x.state, l, verified, t);
    case Scan(j) =>
      if j.tx in ListOf(x, CacheOf(c, j)) {
        CheckIsLook(c, x.state, j, true);
        StepKeepsSingle(c, x.state, CheckLabel(j, true), verified, t);
      }
    case Load(_) =>
    case Store(j) => StoreKeepsSingle(c, x, j, verified, t);
  }

  lemma {:induction false} SinglesAreChecked(c: Config, moves: seq<Move>)
    requires Valid(c) && Possible(c, moves)
    ensures Shape(c, Reached(c, moves).state) && SinglesChecked(c, Reached(c, moves).state, VerifiedBy(c, moves))
  {
    ReachedInv(c, moves);
    if moves != [] {
      SinglesAreChecked(c, Before(moves));
      ReachedInv(c, Before(moves));
      VerifiedByStep(c, moves);
      var x, s', verified := Reached(c, Before(moves)), Reached(c, moves).state, VerifiedBy(c, moves);
      forall t | t in verified && Single(t)
        ensures IsJob(c, s', JobFor(t)) && Checked(JobFor(t), PcOf(c, s', JobFor(t)))
      {
        MoveKeepsSingle(c, x, Final(moves), VerifiedBy(c, Before(moves)), t);
      }
    }
  }

  // ---- endorsement caches that one goroutine uses at a time

  /** No two endorse goroutines of one peer are inside a check. */
  ghost predicate Solo(c: Config, x: System)
    requires c.peers >= 1
  {
    forall i, j :: Inside(x, i) && Inside(x, j) && i.EndorseJob? && j.EndorseJob? && CacheOf(c, i) == CacheOf(c, j) ==>
      i == j
  }

  ghost predicate AlwaysSolo(c: Config, moves: seq<Move>)
    requires c.peers >= 1 && Possible(c, moves)
  {
    Solo(c, Reached(c, moves)) && (moves != [] ==> AlwaysSolo(c, Before(moves)))
  }

  /** Every verified key is in the endorsement cache, and none that a goroutine inside a check has missed; its
      loaded list is the cache as it is. */
  ghost predicate Kept(c: Config, x: System, verified: seq<Target>)
    requires c.peers >= 1
  {
    && (forall t :: t in verified && t.op.ForEndorsement? ==> t.tx in ListOf(x, Cache(ForEndorsement, t.peer)))
    && (forall j :: Inside(x, j) && j.EndorseJob? ==>
          && j.tx !in ListOf(x, CacheOf(c, j))
          && (StageOf(x, j).Loaded? ==> StageOf(x, j).seen == ListOf(x, CacheOf(c, j))))
  }

  lemma StoreKeepsKept(c: Config, x: System, j: Job, verified: seq<Target>)
    requires c.peers >= 1 && Can(c, x, Store(j)) && Solo(c, x) && Kept(c, x, verified)
    ensures Kept(c, Next(c, x, Store(j)), verified + [TargetOf(c, j)])
  {
    var x' := Next(c, x, Store(j));
    assert Inside(x, j);
    forall t | t in verified + [TargetOf(c, j)] && t.op.ForEndorsement?
      ensures t.tx in ListOf(x', Cache(ForEndorsement, t.peer))
    {
      if t in verified {
        assert t.tx in ListOf(x, Cache(ForEndorsement, t.peer));
      }
    }
    forall i | Inside(x', i) && i.EndorseJob?
      ensures ListOf(x', CacheOf(c, i)) == ListOf(x, CacheOf(c, i)) && StageOf(x', i) == StageOf(x, i)
    {
      assert Inside(x, i);
    }
  }

  lemma MoveKeepsKept(c: Config, x: System, m: Move, verified: seq<Target>)
    requires c.peers >= 1 && Can(c, x, m) && Solo(c, x) && Kept(c, x, verified)
    ensures Kept(c, Next(c, x, m), verified + Adds(c, m))
  {
    match m
    case Store(j) => StoreKeepsKept(c, x, j, verified);
    case _ => assert verified + [] == verified;
  }

  lemma StoreIsNew(c: Config, x: System, j: Job, verified: seq<Target>)
    requires Can(c, x, Store(j)) && Kept(c, x, verified) && SinglesChecked(c, x.state, verified)
    ensures TargetOf(c, j) !in verified
  {
    assert Inside(x, j);
    JobOfTarget(c, j);
  }

  lemma JobOfTarget(c: Config, j: Job)
    requires c.peers >= 1
    ensures !j.EndorseJob? ==> Single(TargetOf(c, j)) && JobFor(TargetOf(c, j)) == j
  {
  }

  lemma NoRepeatSnoc(verified: seq<Target>, t: Target)
    requires NoRepeat(verified) && t !in verified
    ensures NoRepeat(verified + [t])
  {
  }

  lemma {:induction false} SoloNeverRepeats(c: Config, moves: seq<Move>)
    requires Valid(c) && Possible(c, moves) && AlwaysSolo(c, moves)
    ensures Kept(c, Reached(c, moves), VerifiedBy(c, moves)) && NoRepeat(VerifiedBy(c, moves))
  {
    if moves != [] {
      SoloNeverRepeats(c, Before(moves));
      VerifiedByStep(c, moves);
      var x, verified := Reached(c, Before(moves)), VerifiedBy(c, Before(moves));
      MoveKeepsKept(c, x, Final(moves), verified);
      match Final(moves)
      case Store(j) =>
        SinglesAreChecked(c, Before(moves));
        StoreIsNew(c, x, j, verified);
        NoRepeatSnoc(verified, TargetOf(c, j));
      case _ => assert verified + [] == verified;
    }
  }

  // ---- how many verifications

  /** The moves have brought the simulation to its end. */
  ghost predicate Finishes(c: Config, moves: seq<Move>) {
    Possible(c, moves) && Reached(c, moves).state.crash == NoCrash && Reached(c, moves).state.main.Finished?
  }

  ghost function VerificationsOf(c: Config, moves: seq<Move>): nat
    requires Possible(c, moves)
  {
    Reached(c, moves).state.events[Crypto(CredVerify)]
  }

  lemma DistinctNumbers(n: nat)
    ensures OneToOne(Same, n)
  {
  }

  /** Whatever the caches do, a finished simulation makes at least N(1 + P + min(E, P)) verifications and at most one
      for every check; it makes no more than it must if and only if none is repeated. */
  lemma CachedBounds(c: Config, moves: seq<Move>)
    requires Valid(c) && Finishes(c, moves)
    ensures Fewest(c) <= VerificationsOf(c, moves) <= Most(c)
    ensures VerificationsOf(c, moves) == Fewest(c) <==> NoRepeat(VerifiedBy(c, moves))
  {
    TraceIsFeasible(c, moves);
    TraceIsEarned(c, moves);
    DistinctNumbers(c.users * c.transactions);
    VerificationBounds(c, Trace(c, moves), Same);
  }

  /** A simulation in which no two endorse goroutines of one peer were ever inside a check together makes exactly
      N(1 + P + min(E, P)) verifications: every second check hits. */
  lemma SoloIsExact(c: Config, moves: seq<Move>)
    requires Valid(c) && Finishes(c, moves) && AlwaysSolo(c, moves)
    ensures VerificationsOf(c, moves) == Fewest(c)
  {
    SoloNeverRepeats(c, moves);
    CachedBounds(c, moves);
  }
}
