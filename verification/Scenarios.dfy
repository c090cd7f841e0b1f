/** Runs that exist: with revocation on, every simulation with a transaction can finish, and can panic. */
module Scenarios {
  import opened Protocol
  import opened Invariant
  import opened Budgets
  import opened Runs
  import opened Epochs
  import opened Theorems

  /** One step that is not a tick. */
  lemma StepOn(c: Config, run: Run) returns (more: Run)
    requires Valid(c) && Feasible(c, run) && After(c, run).crash == NoCrash && !After(c, run).main.Finished?
    ensures Feasible(c, more) && run <= more && Ticks(more) == Ticks(run)
    ensures Moves(run) < Moves(more) <= StepBudget(c)
  {
    var l := DeadlockFreedom(c, run);
    more := run + [l];
    Termination(c, more);
    OneMore(run, l);
  }

  lemma OneMore(run: Run, l: Label)
    requires l != Tick
    ensures Ticks(run + [l]) == Ticks(run) && Moves(run + [l]) == Moves(run) + 1
  {
    assert Front(run + [l]) == run;
  }

  /** The run goes on without ticks until the main goroutine has finished or somebody panics. */
  lemma {:induction false} CarryOn(c: Config, run: Run) returns (whole: Run)
    requires Valid(c) && Feasible(c, run)
    ensures Feasible(c, whole) && run <= whole && Ticks(whole) == Ticks(run)
    ensures After(c, whole).main.Finished? || After(c, whole).crash != NoCrash
    decreases StepBudget(c) - Moves(run)
  {
    if After(c, run).main.Finished? || After(c, run).crash != NoCrash {
      whole := run;
    } else {
      var more := StepOn(c, run);
      whole := CarryOn(c, more);
      assert run <= more <= whole;
    }
  }

  /** Without a tick there is no window for a tick. */
  lemma {:induction false} NoTicks(run: Run, a: nat, b: nat)
    requires a <= b <= |run| && Ticks(run) == 0
    ensures Ticks(run[..b]) == 0 && Ticks(run[a..b]) == 0
  {
    TicksMonotone(run, a, b);
    TicksMonotone(run, b, |run|);
    assert run[..|run|] == run;
  }

  lemma NoTickNoPanic(c: Config, run: Run)
    requires Valid(c) && Feasible(c, run) && Ticks(run) == 0
    ensures After(c, run).crash == NoCrash
  {
    if After(c, run).crash != NoCrash {
      PanicMeansTick(c, run);
      var n: nat, a: nat, b: nat :| a < b <= |run| && RefreshWindow(c, run, n, a, b) && Ticks(run[a..b]) > 0;
      NoTicks(run, a, b);
    }
  }

  /** Every simulation can finish. */
  lemma SomeRunFinishes(c: Config) returns (run: Run)
    requires Valid(c)
    ensures Feasible(c, run) && Ticks(run) == 0
    ensures After(c, run).crash == NoCrash && After(c, run).main.Finished?
  {
    run := CarryOn(c, []);
    NoTickNoPanic(c, run);
  }

  // ---- a tick right after a grant has started

  predicate Begun(pc: JobPc) {
    pc.Working? || pc.Replying? || pc.Releasing? || pc.Gone?
  }

  lemma MainStartsNone(c: Config, s: State, r: nat)
    requires Shape(c, s) && MainCan(c, s) && r < |s.grants| && !Begun(s.grants[r].pc)
    ensures r < |MainStep(c, s).grants| && !Begun(MainStep(c, s).grants[r].pc)
  {
    match s.main { case _ => }
  }

  lemma UserStartsNone(c: Config, s: State, n: nat, r: nat)
    requires Shape(c, s) && UserCan(c, s, n) && r < |s.grants| && !Begun(s.grants[r].pc)
    ensures r < |UserStep(c, s, n).grants| && !Begun(UserStep(c, s, n).grants[r].pc)
  {
    match s.txs[n].user { case _ => }
  }

  lemma OthersStartNone(c: Config, s: State, l: Label, r: nat)
    requires Shape(c, s) && Enabled(c, s, l) && r < |s.grants| && !Begun(s.grants[r].pc) && l != Authority
    ensures r < |Apply(c, s, l).grants| && !Begun(Apply(c, s, l).grants[r].pc)
  {
    match l
    case Main => MainStartsNone(c, s, r);
    case User(n) => UserStartsNone(c, s, n, r);
    case Granter(_) =>
    case Tick =>
    case _ => GoroutinesKeepUsers(c, s, l);
  }

  lemma AuthorityStarts(c: Config, s: State, r: nat)
    requires Shape(c, s) && AuthorityCan(c, s) && r < |s.grants| && !Begun(s.grants[r].pc)
    ensures var s' := AuthorityStep(c, s);
      Begun(s'.grants[r].pc) ==> s'.grants[r].pc == Working(0) && s'.authority.Select? && s'.crash == s.crash
  {
  }

  /** Only the authority starts a grant, and it is back in its select then. */
  lemma StepStartsGrant(c: Config, s: State, l: Label, r: nat)
    requires Shape(c, s) && Enabled(c, s, l) && r < |s.grants| && !Begun(s.grants[r].pc)
    requires r < |Apply(c, s, l).grants| && Begun(Apply(c, s, l).grants[r].pc)
    ensures var s' := Apply(c, s, l);
      s'.grants[r].pc == Working(0) && s'.authority.Select? && s'.crash == NoCrash
  {
    if l == Authority {
      AuthorityStarts(c, s, r);
    } else {
      OthersStartNone(c, s, l, r);
    }
  }

  /** At the end of the run the grant has just started, and the authority is back in its select. */
  ghost predicate JustStarted(c: Config, run: Run, r: nat) {
    Feasible(c, run) && var s := After(c, run);
    r < |s.grants| && s.grants[r].pc == Working(0) && s.authority.Select? && s.crash == NoCrash
  }

  lemma BegunAfterStep(c: Config, run: Run, r: nat)
    requires Valid(c) && Feasible(c, run) && r < |After(c, run).grants| && Begun(After(c, run).grants[r].pc)
    ensures run != [] && Feasible(c, Front(run)) && r < |After(c, Front(run)).grants|
  {
    RunShape(c, Front(run));
    RunShape(c, run);
  }

  lemma LastStepStarts(c: Config, run: Run, r: nat)
    requires Valid(c) && Feasible(c, run) && r < |After(c, run).grants| && Begun(After(c, run).grants[r].pc)
    requires run != [] && Feasible(c, Front(run)) && r < |After(c, Front(run)).grants|
    requires !Begun(After(c, Front(run)).grants[r].pc)
    ensures JustStarted(c, run, r)
  {
    RunShape(c, Front(run));
    StepStartsGrant(c, After(c, Front(run)), Last(run), r);
  }

  /** A started grant has a moment at which it started. */
  lemma {:induction false} GrantStarts(c: Config, run: Run, r: nat) returns (k: nat)
    requires Valid(c) && Feasible(c, run) && r < |After(c, run).grants| && Begun(After(c, run).grants[r].pc)
    ensures k <= |run| && JustStarted(c, run[..k], r)
  {
    BegunAfterStep(c, run, r);
    if Begun(After(c, Front(run)).grants[r].pc) {
      k := GrantStarts(c, Front(run), r);
      assert Front(run)[..k] == run[..k];
    } else {
      k := |run|;
      assert run[..k] == run;
      LastStepStarts(c, run, r);
    }
  }

  /** A run up to the moment at which the grant of transaction n has started, without a tick. */
  lemma ReachGrant(c: Config, n: nat) returns (run: Run)
    requires Valid(c) && c.revoke && n < c.users * c.transactions
    ensures JustStarted(c, run, c.users + n) && Ticks(run) == 0
  {
    var whole := SomeRunFinishes(c);
    Population(c, whole);
    JoinedHandlesMatch(c, whole, n);
    HandleIsSigned(c, whole, n);
    var k := GrantStarts(c, whole, c.users + n);
    NoTicks(whole, 0, k);
    run := whole[..k];
  }

  /** The clock ticks now. */
  lemma TickNow(c: Config, run: Run)
    requires Valid(c) && Feasible(c, run)
    requires After(c, run).authority.Select? && After(c, run).crash == NoCrash
    ensures Feasible(c, run + [Tick]) && Ticks(run + [Tick]) == Ticks(run) + 1
  {
    RunInv(c, run);
    assert Front(run + [Tick]) == run;
  }

  /** While its grant is at work, a transaction has read the epoch. */
  lemma ReadBeforeGrant(c: Config, run: Run, n: nat) returns (a: nat)
    requires Valid(c) && Feasible(c, run) && c.revoke && n < |After(c, run).txs|
    requires c.users + n < |After(c, run).grants| && After(c, run).grants[c.users + n].pc == Working(0)
    ensures ReadsAt(c, run, a, n)
  {
    TxOf(c, run, n);
    a := ReadMoment(c, run, n);
  }

  /** A grant that was still at work before step k, a tick, was signed after it. */
  lemma SignedLater(c: Config, run: Run, k: nat, r: nat) returns (b: nat)
    requires Valid(c) && Feasible(c, run) && c.revoke && r < |After(c, run).grants| && Signed(After(c, run).grants[r])
    requires k < |run| && run[k] == Tick && Feasible(c, run[..k])
    requires r < |After(c, run[..k]).grants| && After(c, run[..k]).grants[r].pc == Working(0)
    ensures k < b && SignsAt(c, run, b, r)
  {
    b := SignMoment(c, run, r);
    if b < k {
      assert run[..k][..b] == run[..b];
      SignStays(c, run[..k], r, b);
    }
  }

  lemma TickCounts(run: Run, a: nat, k: nat, b: nat)
    requires a <= k < b <= |run| && run[k] == Tick
    ensures Ticks(run[a..b]) > 0
  {
    TicksMonotone(run, a, k);
    TicksMonotone(run, k, k + 1);
    TicksMonotone(run, k + 1, b);
    TicksMonotone(run, a, b);
    assert run[k..k + 1] == [Tick] && Front([Tick]) == [];
  }

  /** A tick while a grant is at work falls into the window of its transaction. */
  lemma TickInWindow(c: Config, run: Run, k: nat, n: nat)
    requires Valid(c) && Feasible(c, run) && c.revoke && n < |After(c, run).txs| && Joined(After(c, run).main)
    requires k < |run| && run[k] == Tick && Feasible(c, run[..k])
    requires n < |After(c, run[..k]).txs| && c.users + n < |After(c, run[..k]).grants|
    requires After(c, run[..k]).grants[c.users + n].pc == Working(0)
    ensures TickedWindow(c, run)
  {
    JoinedHandlesMatch(c, run, n);
    HandleIsSigned(c, run, n);
    var a := ReadBeforeGrant(c, run[..k], n);
    var b := SignedLater(c, run, k, c.users + n);
    assert run[..k][..a] == run[..a];
    TickCounts(run, a, k, b);
    assert RefreshWindow(c, run, n, a, b);
  }

  /** The grant of transaction n is at work, and its epoch was read at step a. */
  ghost predicate Refreshes(c: Config, run: Run, n: nat, a: nat) {
    && Feasible(c, run) && c.users + n < |After(c, run).grants|
    && After(c, run).grants[c.users + n].pc == Working(0)
    && ReadsAt(c, run, a, n)
  }

  /** Every simulation with revocation and a transaction can panic: let the clock tick once, at a step k at
      which the grant of transaction n has just started, for any n, and let the run go on. */
  lemma SomeRunPanics(c: Config, n: nat) returns (run: Run, k: nat, a: nat)
    requires Valid(c) && c.revoke && n < c.users * c.transactions
    ensures Feasible(c, run) && Ticks(run) == 1 && After(c, run).crash.StaleHandle?
    ensures a < k < |run| && run[k] == Tick && Refreshes(c, run[..k], n, a)
  {
    var prefix := ReachGrant(c, n);
    Population(c, prefix);
    k := |prefix|;
    a := ReadBeforeGrant(c, prefix, n);
    TickNow(c, prefix);
    run := CarryOn(c, prefix + [Tick]);
    assert run[..k + 1] == prefix + [Tick];
    assert run[..k] == prefix && run[k] == Tick;
    TickedRunPanics(c, run, k, n);
  }

  lemma TickedRunPanics(c: Config, run: Run, k: nat, n: nat)
    requires Valid(c) && c.revoke && n < c.users * c.transactions && Feasible(c, run)
    requires After(c, run).main.Finished? || After(c, run).crash != NoCrash
    requires k < |run| && run[k] == Tick && Feasible(c, run[..k]) && c.users + n < |After(c, run[..k]).grants|
    requires After(c, run[..k]).grants[c.users + n].pc == Working(0)
    ensures After(c, run).crash.StaleHandle?
  {
    if After(c, run).crash == NoCrash {
      Population(c, run);
      Population(c, run[..k]);
      TickInWindow(c, run, k, n);
      FinishMeansNoTick(c, run);
    } else {
      OnlyStaleHandlesPanic(c, run);
    }
  }
}
