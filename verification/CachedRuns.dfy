/** Runs of the protocol carried out with its caches, one check after the other. */
module CachedRuns {
  import opened Sums
  import opened Protocol
  import opened Budgets
  import opened Runs
  import opened Verifications
  import opened Caching
  import R = Scenarios

  lemma Extended(c: Config, moves: seq<Move>, m: Move)
    requires Possible(c, moves) && Can(c, Reached(c, moves), m)
    ensures Possible(c, moves + [m]) && Reached(c, moves + [m]) == Next(c, Reached(c, moves), m)
    ensures Trace(c, moves + [m]) == Trace(c, moves) + Completes(c, Reached(c, moves), m)
  {
    var more := moves + [m];
    assert Before(more) == moves && Final(more) == m;
    assert Perform(c, more) == Reaches(Next(c, Reached(c, moves), m));
  }

  lemma ExtendedVerified(c: Config, moves: seq<Move>, m: Move)
    requires Valid(c) && Possible(c, moves) && Possible(c, moves + [m])
    ensures VerifiedBy(c, moves + [m]) == VerifiedBy(c, moves) + Adds(c, m)
  {
    assert Before(moves + [m]) == moves;
    VerifiedByStep(c, moves + [m]);
  }

  /** One more move. */
  ghost predicate Made(c: Config, moves: seq<Move>, m: Move, more: seq<Move>)
    requires c.peers >= 1 && Possible(c, moves) && Can(c, Reached(c, moves), m)
  {
    && Possible(c, more) && moves <= more
    && Reached(c, more) == Next(c, Reached(c, moves), m)
    && Trace(c, more) == Trace(c, moves) + Completes(c, Reached(c, moves), m)
    && VerifiedBy(c, more) == VerifiedBy(c, moves) + Adds(c, m)
    && (AlwaysSolo(c, moves) && Solo(c, Reached(c, more)) ==> AlwaysSolo(c, more))
  }

  lemma MakeMove(c: Config, moves: seq<Move>, m: Move) returns (more: seq<Move>)
    requires Valid(c) && Possible(c, moves) && Can(c, Reached(c, moves), m)
    ensures Made(c, moves, m, more)
  {
    more := moves + [m];
    assert Before(more) == moves;
    Extended(c, moves, m);
    ExtendedVerified(c, moves, m);
  }

  /** What was possible and verified before is so after. */
  lemma {:induction false} Prefix(c: Config, moves: seq<Move>, more: seq<Move>)
    requires Valid(c) && Possible(c, more) && moves <= more
    ensures Possible(c, moves) && VerifiedBy(c, moves) <= VerifiedBy(c, more)
  {
    if moves == more {
    } else {
      assert moves <= Before(more);
      Prefix(c, moves, Before(more));
      VerifiedByStep(c, more);
    }
  }

  // ---- one check at a time

  /** Nobody is inside a check. */
  ghost predicate Quiet(x: System) {
    forall j :: !Inside(x, j)
  }

  ghost predicate OnlyInside(x: System, j: Job) {
    forall i :: Inside(x, i) ==> i == j
  }

  /** More moves that complete one step of the protocol, with nobody else inside a check meanwhile. */
  ghost predicate Completed(c: Config, moves: seq<Move>, more: seq<Move>, l: Label) {
    && c.peers >= 1 && Possible(c, moves) && Possible(c, more) && moves <= more
    && Trace(c, more) == Trace(c, moves) + [l]
    && Quiet(Reached(c, more))
    && (AlwaysSolo(c, moves) ==> AlwaysSolo(c, more))
    && StepTo(c, Reached(c, moves).state, l, Reached(c, more).state)
    && VerifiedBy(c, more) == VerifiedBy(c, moves) + VerifiedIn(LookOf(c, Reached(c, moves).state, l))
  }

  ghost predicate StepTo(c: Config, s: State, l: Label, s': State) {
    Shape(c, s) && Enabled(c, s, l) && s' == Apply(c, s, l)
  }

  lemma HitSystem(c: Config, x: System, j: Job)
    requires Shape(c, x.state) && Quiet(x) && AtCheck(c, x.state, j) && j.tx in ListOf(x, CacheOf(c, j))
    ensures Can(c, x, Scan(j)) && Completes(c, x, Scan(j)) == [CheckLabel(j, true)]
    ensures var x' := Next(c, x, Scan(j));
      StepTo(c, x.state, CheckLabel(j, true), x'.state) && Quiet(x') && Solo(c, x')
    ensures VerifiedIn(LookOf(c, x.state, CheckLabel(j, true))) == []
  {
    CheckIsLook(c, x.state, j, true);
    assert !Inside(x, j);
    assert Next(c, x, Scan(j)).stages == x.stages;
    assert forall i :: Inside(Next(c, x, Scan(j)), i) ==> Inside(x, i);
  }

  lemma HitAtOnce(c: Config, moves: seq<Move>, j: Job) returns (more: seq<Move>)
    requires Valid(c) && Possible(c, moves) && Quiet(Reached(c, moves)) && Shape(c, Reached(c, moves).state)
    requires AtCheck(c, Reached(c, moves).state, j) && j.tx in ListOf(Reached(c, moves), CacheOf(c, j))
    ensures Completed(c, moves, more, CheckLabel(j, true))
  {
    HitSystem(c, Reached(c, moves), j);
    more := MakeMove(c, moves, Scan(j));
  }

  ghost predicate OthersStay(x: System, x': System, j: Job) {
    forall i :: i != j ==> StageOf(x', i) == StageOf(x, i)
  }

  lemma ScanMisses(c: Config, x: System, j: Job)
    requires Shape(c, x.state) && AtCheck(c, x.state, j) && !Inside(x, j) && j.tx !in ListOf(x, CacheOf(c, j))
    ensures Can(c, x, Scan(j)) && Completes(c, x, Scan(j)) == []
    ensures var x' := Next(c, x, Scan(j));
      x'.state == x.state && x'.caches == x.caches && OthersStay(x, x', j) && StageOf(x', j).Missed?
  {
  }

  lemma LoadsList(c: Config, x: System, j: Job)
    requires Shape(c, x.state) && AtCheck(c, x.state, j) && StageOf(x, j).Missed?
    ensures Can(c, x, Load(j)) && Completes(c, x, Load(j)) == []
    ensures var x' := Next(c, x, Load(j));
      && x'.state == x.state && x'.caches == x.caches && OthersStay(x, x', j)
      && StageOf(x', j) == Loaded(ListOf(x, CacheOf(c, j)))
  {
  }

  lemma StoresList(c: Config, x: System, j: Job)
    requires Shape(c, x.state) && AtCheck(c, x.state, j) && StageOf(x, j).Loaded?
    ensures Can(c, x, Store(j)) && Completes(c, x, Store(j)) == [CheckLabel(j, false)]
    ensures var x' := Next(c, x, Store(j));
      && StepTo(c, x.state, CheckLabel(j, false), x'.state) && OthersStay(x, x', j) && !Inside(x', j)
      && ListOf(x', CacheOf(c, j)) == StageOf(x, j).seen + [j.tx]
    ensures VerifiedIn(LookOf(c, x.state, CheckLabel(j, false))) == Adds(c, Store(j)) == [TargetOf(c, j)]
  {
    CheckIsLook(c, x.state, j, false);
  }

  lemma OnlyStays(c: Config, x: System, x': System, j: Job)
    requires c.peers >= 1 && OnlyInside(x, j) && OthersStay(x, x', j)
    ensures OnlyInside(x', j) && Solo(c, x') && (!Inside(x', j) ==> Quiet(x'))
  {
    forall i ensures Inside(x', i) ==> i == j {
      assert i != j ==> StageOf(x', i) == StageOf(x, i);
      assert Inside(x, i) ==> i == j;
    }
  }

  /** A scan that misses, and the load after it. */
  ghost predicate MissedAndLoaded(c: Config, moves: seq<Move>, more: seq<Move>, j: Job) {
    && c.peers >= 1 && Possible(c, moves) && Possible(c, more) && moves <= more
    && Trace(c, more) == Trace(c, moves) && VerifiedBy(c, more) == VerifiedBy(c, moves)
    && (AlwaysSolo(c, moves) ==> AlwaysSolo(c, more))
    && var x, x' := Reached(c, moves), Reached(c, more);
       && x'.state == x.state && x'.caches == x.caches && OnlyInside(x', j)
       && StageOf(x', j) == Loaded(ListOf(x, CacheOf(c, j)))
  }

  lemma MissAndLoad(c: Config, moves: seq<Move>, j: Job) returns (more: seq<Move>)
    requires Valid(c) && Possible(c, moves) && Quiet(Reached(c, moves)) && Shape(c, Reached(c, moves).state)
    requires AtCheck(c, Reached(c, moves).state, j) && j.tx !in ListOf(Reached(c, moves), CacheOf(c, j))
    ensures MissedAndLoaded(c, moves, more, j)
  {
    assert !Inside(Reached(c, moves), j);
    ScanMisses(c, Reached(c, moves), j);
    var m1 := MakeMove(c, moves, Scan(j));
    OnlyStays(c, Reached(c, moves), Reached(c, m1), j);
    LoadsList(c, Reached(c, m1), j);
    more := MakeMove(c, m1, Load(j));
    OnlyStays(c, Reached(c, m1), Reached(c, more), j);
  }

  lemma MissAtOnce(c: Config, moves: seq<Move>, j: Job) returns (more: seq<Move>)
    requires Valid(c) && Possible(c, moves) && Quiet(Reached(c, moves)) && Shape(c, Reached(c, moves).state)
    requires AtCheck(c, Reached(c, moves).state, j) && j.tx !in ListOf(Reached(c, moves), CacheOf(c, j))
    ensures Completed(c, moves, more, CheckLabel(j, false))
    ensures VerifiedBy(c, more) == VerifiedBy(c, moves) + [TargetOf(c, j)]
  {
    var m2 := MissAndLoad(c, moves, j);
    StoresList(c, Reached(c, m2), j);
    more := MakeMove(c, m2, Store(j));
    OnlyStays(c, Reached(c, m2), Reached(c, more), j);
  }

  function JobOf(l: Label): Job
    requires l.Endorser? || l.Orderer? || l.Validator?
  {
    match l
    case Endorser(n, slot, _) => EndorseJob(n, slot)
    case Orderer(n, _) => OrderJob(n)
    case Validator(n, p, _) => ValidateJob(n, p)
  }

  lemma LookIsCheck(c: Config, s: State, l: Label)
    requires Shape(c, s) && Enabled(c, s, l) && LookOf(c, s, l).Look?
    ensures (l.Endorser? || l.Orderer? || l.Validator?) && AtCheck(c, s, JobOf(l))
    ensures LookOf(c, s, l).target == TargetOf(c, JobOf(l))
  {
  }

  ghost predicate SameLook(c: Config, s: State, l: Label, l': Label)
    requires Shape(c, s) && Enabled(c, s, l) && Enabled(c, s, l')
  {
    match LookOf(c, s, l)
    case NoLook => l' == l
    case Look(t, _) => Checks(LookOf(c, s, l'), t)
  }

  lemma PlainSystem(c: Config, x: System, l: Label)
    requires Shape(c, x.state) && Quiet(x) && Enabled(c, x.state, l) && LookOf(c, x.state, l).NoLook?
    ensures Can(c, x, Plain(l)) && Completes(c, x, Plain(l)) == [l]
    ensures var x' := Next(c, x, Plain(l)); StepTo(c, x.state, l, x'.state) && Quiet(x') && Solo(c, x')
  {
    assert Next(c, x, Plain(l)).stages == x.stages;
    assert forall i :: Inside(Next(c, x, Plain(l)), i) ==> Inside(x, i);
  }

  lemma PlainAtOnce(c: Config, moves: seq<Move>, l: Label) returns (more: seq<Move>)
    requires Valid(c) && Possible(c, moves) && Quiet(Reached(c, moves)) && Shape(c, Reached(c, moves).state)
    requires Enabled(c, Reached(c, moves).state, l) && LookOf(c, Reached(c, moves).state, l).NoLook?
    ensures Completed(c, moves, more, l)
  {
    PlainSystem(c, Reached(c, moves), l);
    more := MakeMove(c, moves, Plain(l));
  }

  /** Any step of the protocol can be made at once, its check as the caches have it. */
  lemma StepAtOnce(c: Config, moves: seq<Move>, l: Label) returns (more: seq<Move>, l': Label)
    requires Valid(c) && Possible(c, moves) && Quiet(Reached(c, moves)) && Shape(c, Reached(c, moves).state)
    requires Enabled(c, Reached(c, moves).state, l)
    ensures Completed(c, moves, more, l')
    ensures SameLook(c, Reached(c, moves).state, l, l')
  {
    var x := Reached(c, moves);
    if LookOf(c, x.state, l).NoLook? {
      more := PlainAtOnce(c, moves, l);
      l' := l;
    } else {
      LookIsCheck(c, x.state, l);
      var j := JobOf(l);
      CheckIsLook(c, x.state, j, true);
      CheckIsLook(c, x.state, j, false);
      if j.tx in ListOf(x, CacheOf(c, j)) {
        more := HitAtOnce(c, moves, j);
        l' := CheckLabel(j, true);
      } else {
        more := MissAtOnce(c, moves, j);
        l' := CheckLabel(j, false);
      }
    }
  }

  // ---- to the end

  /** Moves without a tick so far, with nobody inside a check. */
  ghost predicate Calm(c: Config, moves: seq<Move>) {
    Possible(c, moves) && Quiet(Reached(c, moves)) && Ticks(Trace(c, moves)) == 0
  }

  lemma SameLookIsNoTick(c: Config, s: State, l: Label, l': Label)
    requires Shape(c, s) && Enabled(c, s, l) && Enabled(c, s, l') && SameLook(c, s, l, l') && l != Tick
    ensures l' != Tick
  {
  }

  /** One more step of the protocol that is no tick. */
  lemma StepCalmly(c: Config, moves: seq<Move>, l: Label) returns (more: seq<Move>, l': Label)
    requires Valid(c) && Calm(c, moves) && Shape(c, Reached(c, moves).state) && Enabled(c, Reached(c, moves).state, l)
    requires l != Tick
    ensures Completed(c, moves, more, l') && Calm(c, more)
    ensures SameLook(c, Reached(c, moves).state, l, l')
    ensures Moves(Trace(c, moves)) < Moves(Trace(c, more)) <= StepBudget(c)
  {
    more, l' := StepAtOnce(c, moves, l);
    SameLookIsNoTick(c, Reached(c, moves).state, l, l');
    R.OneMore(Trace(c, moves), l');
    TraceIsFeasible(c, more);
    Termination(c, Trace(c, more));
  }

  lemma CalmIsSafe(c: Config, moves: seq<Move>)
    requires Valid(c) && Calm(c, moves)
    ensures Shape(c, Reached(c, moves).state) && Reached(c, moves).state.crash == NoCrash
  {
    ReachedInv(c, moves);
    TraceIsFeasible(c, moves);
    R.NoTickNoPanic(c, Trace(c, moves));
  }

  lemma SomeLabel(c: Config, moves: seq<Move>) returns (l: Label)
    requires Valid(c) && Calm(c, moves) && !Reached(c, moves).state.main.Finished?
    ensures Shape(c, Reached(c, moves).state) && l != Tick && Enabled(c, Reached(c, moves).state, l)
  {
    CalmIsSafe(c, moves);
    TraceIsFeasible(c, moves);
    l := DeadlockFreedom(c, Trace(c, moves));
    assert Front(Trace(c, moves) + [l]) == Trace(c, moves) && Last(Trace(c, moves) + [l]) == l;
  }

  /** The moves can go on to the end of the simulation, one check after the other. */
  lemma {:induction false} FinishCalmly(c: Config, moves: seq<Move>) returns (whole: seq<Move>)
    requires Valid(c) && Calm(c, moves)
    ensures Finishes(c, whole) && moves <= whole && (AlwaysSolo(c, moves) ==> AlwaysSolo(c, whole))
    decreases StepBudget(c) - Moves(Trace(c, moves))
  {
    CalmIsSafe(c, moves);
    if Reached(c, moves).state.main.Finished? {
      whole := moves;
    } else {
      var l := SomeLabel(c, moves);
      var more, l' := StepCalmly(c, moves, l);
      whole := FinishCalmly(c, more);
      assert moves <= more <= whole;
    }
  }

  lemma StartIsCalm(c: Config)
    requires Valid(c)
    ensures Calm(c, []) && AlwaysSolo(c, [])
  {
  }

  /** Every configuration has a finished simulation without any avoidable verification. */
  lemma SomeIsExact(c: Config) returns (moves: seq<Move>)
    requires Valid(c)
    ensures Finishes(c, moves) && VerificationsOf(c, moves) == Fewest(c)
  {
    StartIsCalm(c);
    moves := FinishCalmly(c, []);
    SoloIsExact(c, moves);
  }
}
