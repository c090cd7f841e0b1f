/** Theorems about whole runs of the simulation, under every interleaving. */
module Runs {
  import opened Sums
  import opened Events
  import opened Protocol
  import opened Accounts
  import opened Invariant
  import opened Budgets
  import P = Preservation
  import C = Conservation
  import G = Progress

  /** A run is the sequence of the processes that moved. */
  type Run = seq<Label>

  function Front(run: Run): Run
    requires run != []
  {
    run[..|run| - 1]
  }

  function Last(run: Run): Label
    requires run != []
  {
    run[|run| - 1]
  }

  datatype Outcome = Impossible | At(state: State)

  ghost function Play(c: Config, run: Run): Outcome {
    if run == [] then At(Init(c))
    else
      match Play(c, Front(run))
      case Impossible => Impossible
      case At(s) => if Shape(c, s) && Enabled(c, s, Last(run)) then At(Apply(c, s, Last(run))) else Impossible
  }

  ghost predicate Feasible(c: Config, run: Run) {
    Play(c, run).At?
  }

  ghost function After(c: Config, run: Run): State
    requires Feasible(c, run)
  {
    Play(c, run).state
  }

  /** Steps of a run other than clock ticks. */
  function Moves(run: Run): nat {
    if run == [] then 0 else Moves(Front(run)) + One(Last(run) != Tick)
  }

  function Ticks(run: Run): nat {
    if run == [] then 0 else Ticks(Front(run)) + One(Last(run) == Tick)
  }

  /** Identity checks that hit a cache. */
  ghost function Hits(c: Config, run: Run): nat
    requires Feasible(c, run)
  {
    if run == [] then 0 else Hits(c, Front(run)) + One(C.Hit(c, After(c, Front(run)), Last(run)))
  }

  lemma {:induction false} RunInv(c: Config, run: Run)
    requires Valid(c) && Feasible(c, run)
    ensures Inv(c, After(c, run))
  {
    if run == [] {
      InitInv(c);
    } else {
      RunInv(c, Front(run));
      P.StepKeepsInv(c, After(c, Front(run)), Last(run));
    }
  }

  ghost function SpentBy(c: Config, run: Run, w: Weight): nat
    requires Feasible(c, run)
  {
    match w
    case Steps => Moves(run)
    case Count(e) => if e == Crypto(CredVerify) then Hits(c, run) else 0
    case _ => 0
  }

  lemma RunShape(c: Config, run: Run)
    requires Valid(c) && Feasible(c, run)
    ensures Shape(c, After(c, run))
  {
    RunInv(c, run);
  }

  /** The last step of a run pays for itself. */
  lemma LastStepPays(c: Config, run: Run, w: Weight)
    requires Valid(c) && Feasible(c, run) && run != [] && After(c, run).crash == NoCrash
    ensures Shape(c, After(c, run)) && Shape(c, After(c, Front(run)))
    ensures Balance(c, w, After(c, run)) ==
              Balance(c, w, After(c, Front(run))) - C.Spent(c, After(c, Front(run)), Last(run), w)
    ensures After(c, Front(run)).crash == NoCrash
  {
    RunInv(c, Front(run));
    C.StepBalance(c, After(c, Front(run)), Last(run), w);
  }

  lemma SpentMore(c: Config, run: Run, w: Weight)
    requires Feasible(c, run) && run != []
    ensures SpentBy(c, run, w) == SpentBy(c, Front(run), w) + C.Spent(c, After(c, Front(run)), Last(run), w)
  {
  }

  /** Conservation along a run without panic. */
  lemma {:induction false} RunBalance(c: Config, run: Run, w: Weight)
    requires Valid(c) && Feasible(c, run) && After(c, run).crash == NoCrash
    ensures Shape(c, After(c, run)) && Shape(c, Init(c))
    ensures Balance(c, w, After(c, run)) == Balance(c, w, Init(c)) - SpentBy(c, run, w)
  {
    if run == [] {
      RunShape(c, run);
    } else {
      LastStepPays(c, run, w);
      SpentMore(c, run, w);
      RunBalance(c, Front(run), w);
    }
  }

  /** The permits of a peer, along a run. */
  lemma RunPermits(c: Config, run: Run, p: nat)
    requires Valid(c) && Feasible(c, run) && After(c, run).crash == NoCrash && p < c.peers
    ensures Shape(c, After(c, run))
    ensures Balance(c, EndorsePermit(p), After(c, run)) == c.concurrentEndorsements
    ensures Balance(c, ValidatePermit(p), After(c, run)) == c.concurrentValidations
  {
    RunBalance(c, run, EndorsePermit(p));
    RunBalance(c, run, ValidatePermit(p));
    InitialPermits(c, EndorsePermit(p));
    InitialPermits(c, ValidatePermit(p));
  }

  lemma RunGrantPermits(c: Config, run: Run)
    requires Valid(c) && Feasible(c, run) && After(c, run).crash == NoCrash
    ensures Shape(c, After(c, run)) && Balance(c, GrantPermit, After(c, run)) == c.concurrentRevocations
  {
    RunBalance(c, run, GrantPermit);
    InitialPermits(c, GrantPermit);
  }

  lemma RunFunded(c: Config, run: Run)
    requires Valid(c) && Feasible(c, run) && After(c, run).crash == NoCrash
    ensures Shape(c, After(c, run)) && G.Funded(c, After(c, run))
  {
    RunGrantPermits(c, run);
    forall p | 0 <= p < c.peers
      ensures Balance(c, EndorsePermit(p), After(c, run)) == c.concurrentEndorsements
      ensures Balance(c, ValidatePermit(p), After(c, run)) == c.concurrentValidations
    {
      RunPermits(c, run, p);
    }
  }

  // ---- deadlock freedom

  /** In every reachable state that is neither finished nor panicked, some process other than the clock
      can move. */
  lemma DeadlockFreedom(c: Config, run: Run) returns (l: Label)
    requires Valid(c) && Feasible(c, run) && After(c, run).crash == NoCrash && !After(c, run).main.Finished?
    ensures l != Tick && Feasible(c, run + [l])
  {
    RunInv(c, run);
    RunFunded(c, run);
    l := G.SomeProcessMoves(c, After(c, run));
    assert Front(run + [l]) == run;
  }

  // ---- termination

  lemma StepsLeftInTx(c: Config, n: nat, t: Tx, g: Grant, epoch: nat)
    requires c.peers >= 1 && c.endorsements >= 1 && TxInv(c, t, g, epoch)
    ensures TxWeight(c, Steps, n, t) >= 0
    ensures (exists p :: 0 <= p < c.peers && Holds(t.validate[p])) ==> TxWeight(c, Steps, n, t) >= 1
  {
    SumNonNegative(EndorseWeights(c, Steps, n, t.endorse));
    SumNonNegative(ValidateWeights(c, Steps, n, t.validate));
    LogBound(t.commits, c.peers);
    if p :| 0 <= p < c.peers && Holds(t.validate[p]) {
      assert ValidateWeights(c, Steps, n, t.validate)[p] >= 1;
    }
  }

  lemma StepsLeftAt(c: Config, s: State, n: nat)
    requires Inv(c, s) && n < |s.txs|
    ensures TxWeight(c, Steps, n, s.txs[n]) >= 0
    ensures (exists p :: 0 <= p < c.peers && Holds(s.txs[n].validate[p])) ==> TxWeight(c, Steps, n, s.txs[n]) >= 1
  {
    StepsLeftInTx(c, n, s.txs[n], s.grants[c.users + n], s.epoch);
  }

  lemma MainStepsLeft(c: Config, s: State)
    requires Inv(c, s)
    ensures MainWeight(c, Steps, s.main, |s.txs|) >= 0
  {
  }

  /** Steps left are never negative, and are at least those of any one transaction. */
  lemma StepsLeft(c: Config, s: State)
    requires Inv(c, s)
    ensures Total(c, Steps, s) >= 0
    ensures forall n :: 0 <= n < |s.txs| ==> TxWeight(c, Steps, n, s.txs[n]) <= Total(c, Steps, s)
  {
    MainStepsLeft(c, s);
    forall n | 0 <= n < |s.txs| ensures TxWeight(c, Steps, n, s.txs[n]) >= 0 {
      StepsLeftAt(c, s, n);
    }
    PartsOfTotal(c, s);
  }

  lemma PartsOfTotal(c: Config, s: State)
    requires c.peers >= 1 && MainWeight(c, Steps, s.main, |s.txs|) >= 0
    requires forall n :: 0 <= n < |s.txs| ==> TxWeight(c, Steps, n, s.txs[n]) >= 0
    ensures Total(c, Steps, s) >= 0
    ensures forall n :: 0 <= n < |s.txs| ==> TxWeight(c, Steps, n, s.txs[n]) <= Total(c, Steps, s)
  {
    SumNonNegative(TxWeights(c, Steps, s.txs));
    SumNonNegative(GrantWeights(c, Steps, s.grants));
    assert forall n :: 0 <= n < |s.txs| ==> TxWeight(c, Steps, n, s.txs[n]) == TxWeights(c, Steps, s.txs)[n];
  }

  lemma OnlyValidatorsPanic(c: Config, s: State, l: Label)
    requires Shape(c, s) && Enabled(c, s, l) && Apply(c, s, l).crash != NoCrash
    ensures l.Validator? && l.tx < |s.txs| && l.peer < c.peers && Holds(s.txs[l.tx].validate[l.peer])
  {
  }

  /** A step that panics is the step of a validator that still has work. */
  lemma PanicLeavesSteps(c: Config, s: State, l: Label)
    requires Inv(c, s) && Enabled(c, s, l) && Apply(c, s, l).crash != NoCrash
    ensures l != Tick && Total(c, Steps, s) >= 1
  {
    OnlyValidatorsPanic(c, s, l);
    StepsLeftAt(c, s, l.tx);
    StepsLeft(c, s);
  }

  /** No run makes more than StepBudget steps, whatever the clock does. */
  lemma Termination(c: Config, run: Run)
    requires Valid(c) && Feasible(c, run)
    ensures Moves(run) <= StepBudget(c)
  {
    InitInv(c);
    InitialSteps(c);
    if After(c, run).crash == NoCrash {
      RunBalance(c, run, Steps);
      RunInv(c, run);
      StepsLeft(c, After(c, run));
    } else {
      RunBalance(c, Front(run), Steps);
      RunInv(c, Front(run));
      PanicLeavesSteps(c, After(c, Front(run)), Last(run));
    }
  }
}
