/** Epochs: how far a handle can run ahead of the epoch its transaction claims, and when a simulation
    with revocation completes. */
module Epochs {
  import opened Sums
  import opened Protocol
  import opened Accounts
  import opened Invariant
  import opened Runs
  import P = Preservation

  predicate Signed(g: Grant) {
    g.pc.Replying? || Replied(g.pc)
  }

  /** This step reads the epoch for transaction n. */
  ghost predicate Reads(s: State, l: Label, n: nat) {
    n < |s.txs| && l == User(n) && s.txs[n].user.Reading?
  }

  /** This step signs grant r. */
  ghost predicate Signs(s: State, l: Label, r: nat) {
    r < |s.grants| && l == Granter(r) && s.grants[r].pc == Working(0)
  }

  /** A step that leaves the user, epoch and handle of every transaction alone, and the clock too. */
  ghost predicate KeepsUsers(s: State, s': State) {
    && |s'.txs| == |s.txs| && s'.epoch == s.epoch && s'.grants == s.grants
    && forall n :: 0 <= n < |s.txs| ==>
         s'.txs[n].user == s.txs[n].user && s'.txs[n].epoch == s.txs[n].epoch && s'.txs[n].handle == s.txs[n].handle
  }

  lemma LoopKeepsUsers(c: Config, s: State, p: nat)
    requires Shape(c, s) && LoopCan(c, s, p)
    ensures KeepsUsers(s, LoopStep(c, s, p))
  {
  }

  lemma EndorserKeepsUsers(c: Config, s: State, n: nat, slot: nat, hit: bool)
    requires Shape(c, s) && EndorserCan(c, s, n, slot)
    ensures KeepsUsers(s, EndorserStep(c, s, n, slot, hit))
  {
  }

  lemma OrdererKeepsUsers(c: Config, s: State, n: nat, hit: bool)
    requires Shape(c, s) && OrdererCan(c, s, n)
    ensures KeepsUsers(s, OrdererStep(c, s, n, hit))
  {
  }

  lemma ValidatorKeepsUsers(c: Config, s: State, n: nat, p: nat, hit: bool)
    requires Shape(c, s) && ValidatorCan(c, s, n, p)
    ensures KeepsUsers(s, ValidatorStep(c, s, n, p, hit))
  {
  }

  lemma GoroutinesKeepUsers(c: Config, s: State, l: Label)
    requires Shape(c, s) && Enabled(c, s, l)
    requires l.Loop? || l.Endorser? || l.Orderer? || l.Validator?
    ensures KeepsUsers(s, Apply(c, s, l))
  {
    match l
    case Loop(p) => LoopKeepsUsers(c, s, p);
    case Endorser(n, slot, hit) => EndorserKeepsUsers(c, s, n, slot, hit);
    case Orderer(n, hit) => OrdererKeepsUsers(c, s, n, hit);
    case Validator(n, p, hit) => ValidatorKeepsUsers(c, s, n, p, hit);
  }

  lemma UserKeepsOthers(c: Config, s: State, m: nat, n: nat)
    requires Shape(c, s) && UserCan(c, s, m) && n < |s.txs| && n != m
    ensures |UserStep(c, s, m).txs| == |s.txs| && UserStep(c, s, m).txs[n] == s.txs[n]
  {
  }

  lemma OthersKeepEpoch(c: Config, s: State, l: Label, n: nat)
    requires Shape(c, s) && Enabled(c, s, l) && n < |s.txs| && l != User(n)
    ensures var s' := Apply(c, s, l);
      |s'.txs| == |s.txs| && s'.txs[n].user == s.txs[n].user && s'.txs[n].epoch == s.txs[n].epoch
  {
    if l.User? {
      UserKeepsOthers(c, s, l.tx, n);
    } else if l.Loop? || l.Endorser? || l.Orderer? || l.Validator? {
      GoroutinesKeepUsers(c, s, l);
    }
  }

  lemma ReadingTakesEpoch(c: Config, s: State, n: nat)
    requires Shape(c, s) && UserCan(c, s, n) && s.txs[n].user.Reading?
    ensures var t' := UserStep(c, s, n).txs[n]; Refreshing(t'.user) && t'.epoch == s.epoch
  {
  }

  lemma RefreshingKeepsEpoch(c: Config, s: State, n: nat)
    requires Shape(c, s) && UserCan(c, s, n) && Refreshing(s.txs[n].user)
    ensures var t' := UserStep(c, s, n).txs[n]; Refreshing(t'.user) && t'.epoch == s.txs[n].epoch
  {
    match s.txs[n].user { case _ => }
  }

  lemma EarlyStaysEarly(c: Config, s: State, n: nat)
    requires Shape(c, s) && UserCan(c, s, n) && c.revoke
    requires !Refreshing(s.txs[n].user) && !s.txs[n].user.Reading?
    ensures !Refreshing(UserStep(c, s, n).txs[n].user)
  {
    match s.txs[n].user { case _ => }
  }

  lemma UserKeepsEpoch(c: Config, s: State, n: nat)
    requires Shape(c, s) && UserCan(c, s, n) && c.revoke
    ensures var t, t' := s.txs[n], UserStep(c, s, n).txs[n];
      && (Refreshing(t'.user) <==> Refreshing(t.user) || t.user.Reading?)
      && (Refreshing(t.user) ==> t'.epoch == t.epoch)
      && (t.user.Reading? ==> t'.epoch == s.epoch)
  {
    if s.txs[n].user.Reading? {
      ReadingTakesEpoch(c, s, n);
    } else if Refreshing(s.txs[n].user) {
      RefreshingKeepsEpoch(c, s, n);
    } else {
      EarlyStaysEarly(c, s, n);
    }
  }

  lemma StepEpoch(c: Config, s: State, l: Label, n: nat)
    requires Shape(c, s) && Enabled(c, s, l) && n < |s.txs| && c.revoke
    ensures var s' := Apply(c, s, l);
      && |s'.txs| == |s.txs|
      && (Refreshing(s'.txs[n].user) <==> Refreshing(s.txs[n].user) || Reads(s, l, n))
      && (Refreshing(s.txs[n].user) ==> s'.txs[n].epoch == s.txs[n].epoch)
      && (Reads(s, l, n) ==> s'.txs[n].epoch == s.epoch)
  {
    if l == User(n) {
      UserKeepsEpoch(c, s, n);
    } else {
      OthersKeepEpoch(c, s, l, n);
    }
  }

  /** Grant r before and after a step that leaves it alone, signs it or moves it within one half. */
  ghost predicate GrantKept(s: State, l: Label, s': State, r: nat)
    requires r < |s.grants|
  {
    && |s'.grants| == |s.grants|
    && (Signed(s'.grants[r]) <==> Signed(s.grants[r]) || Signs(s, l, r))
    && (Signed(s.grants[r]) ==> s'.grants[r].signed == s.grants[r].signed)
    && (Signs(s, l, r) ==> s'.grants[r].signed == s.epoch)
  }

  lemma UserKeepsGrants(c: Config, s: State, n: nat, r: nat)
    requires Shape(c, s) && UserCan(c, s, n) && r < |s.grants|
    requires s.txs[n].user.Requesting? ==> s.grants[c.users + n].pc.Unsent?
    ensures GrantKept(s, User(n), UserStep(c, s, n), r)
  {
    match s.txs[n].user { case _ => }
  }

  lemma MainKeepsGrants(c: Config, s: State, r: nat)
    requires Shape(c, s) && MainCan(c, s) && r < |s.grants|
    requires s.main.Launching? && s.main.next < c.users && c.revoke ==> s.grants[s.main.next].pc.Unsent?
    ensures GrantKept(s, Main, MainStep(c, s), r)
  {
    match s.main { case _ => }
  }

  lemma OthersKeepGrants(c: Config, s: State, l: Label, r: nat)
    requires Shape(c, s) && Enabled(c, s, l) && r < |s.grants| && l != Main && !l.User?
    ensures GrantKept(s, l, Apply(c, s, l), r)
  {
    if l.Loop? || l.Endorser? || l.Orderer? || l.Validator? {
      GoroutinesKeepUsers(c, s, l);
    }
  }

  lemma StepSigned(c: Config, s: State, l: Label, r: nat)
    requires Inv(c, s) && Enabled(c, s, l) && r < |s.grants|
    ensures GrantKept(s, l, Apply(c, s, l), r)
  {
    if l.User? {
      assert TxInv(c, s.txs[l.tx], s.grants[c.users + l.tx], s.epoch);
      UserKeepsGrants(c, s, l.tx, r);
    } else if l == Main {
      MainKeepsGrants(c, s, r);
    } else {
      OthersKeepGrants(c, s, l, r);
    }
  }

  // ---- along a run

  lemma EpochStep(c: Config, s: State, l: Label)
    requires Shape(c, s) && Enabled(c, s, l) && c.revoke
    ensures Apply(c, s, l).epoch == s.epoch + One(l == Tick)
  {
    if l.Loop? || l.Endorser? || l.Orderer? || l.Validator? {
      GoroutinesKeepUsers(c, s, l);
    }
  }

  /** The network epoch counts the ticks of the clock, from 1. */
  lemma {:induction false} RunEpoch(c: Config, run: Run)
    requires Valid(c) && Feasible(c, run) && c.revoke
    ensures After(c, run).epoch == 1 + Ticks(run)
  {
    if run != [] {
      RunInv(c, Front(run));
      RunEpoch(c, Front(run));
      EpochStep(c, After(c, Front(run)), Last(run));
    }
  }

  /** At step k of the run, transaction n reads the epoch. */
  ghost predicate ReadsAt(c: Config, run: Run, k: nat, n: nat) {
    k < |run| && Feasible(c, run[..k]) && Reads(After(c, run[..k]), run[k], n)
  }

  /** At step k of the run, grant r is signed. */
  ghost predicate SignsAt(c: Config, run: Run, k: nat, r: nat) {
    k < |run| && Feasible(c, run[..k]) && Signs(After(c, run[..k]), run[k], r)
  }

  lemma Prefixes(run: Run)
    requires run != []
    ensures forall k :: 0 <= k <= |run| - 1 ==> Front(run)[..k] == run[..k]
    ensures forall k :: 0 <= k < |run| - 1 ==> Front(run)[k] == run[k]
    ensures run[..|run| - 1] == Front(run)
  {
  }

  /** One more step of a run, seen from transaction n. */
  lemma RunStepEpoch(c: Config, run: Run, n: nat)
    requires Valid(c) && Feasible(c, run) && c.revoke && run != [] && n < |After(c, run).txs|
    ensures Feasible(c, Front(run)) && n < |After(c, Front(run)).txs|
    ensures var s, s' := After(c, Front(run)), After(c, run);
      && (Refreshing(s'.txs[n].user) <==> Refreshing(s.txs[n].user) || Reads(s, Last(run), n))
      && (Refreshing(s.txs[n].user) ==> s'.txs[n].epoch == s.txs[n].epoch)
      && (Reads(s, Last(run), n) ==> s'.txs[n].epoch == 1 + Ticks(Front(run)))
  {
    var s := After(c, Front(run));
    RunInv(c, Front(run));
    StepSize(c, s, Last(run));
    StepEpoch(c, s, Last(run), n);
    RunEpoch(c, Front(run));
  }

  lemma RunStepSigned(c: Config, run: Run, r: nat)
    requires Valid(c) && Feasible(c, run) && c.revoke && run != [] && r < |After(c, run).grants|
    ensures Feasible(c, Front(run)) && r < |After(c, Front(run)).grants|
    ensures var s, s' := After(c, Front(run)), After(c, run);
      && (Signed(s'.grants[r]) <==> Signed(s.grants[r]) || Signs(s, Last(run), r))
      && (Signed(s.grants[r]) ==> s'.grants[r].signed == s.grants[r].signed)
      && (Signs(s, Last(run), r) ==> s'.grants[r].signed == 1 + Ticks(Front(run)))
  {
    var s := After(c, Front(run));
    RunInv(c, Front(run));
    StepSize(c, s, Last(run));
    StepSigned(c, s, Last(run), r);
    RunEpoch(c, Front(run));
  }

  lemma StepSize(c: Config, s: State, l: Label)
    requires Inv(c, s) && Enabled(c, s, l)
    ensures |Apply(c, s, l).txs| == |s.txs| && |Apply(c, s, l).grants| == |s.grants|
  {
    P.StepKeepsInv(c, s, l);
  }

  /** A transaction that has its epoch has read it at some step, and keeps it. */
  lemma {:induction false} ReadMoment(c: Config, run: Run, n: nat) returns (a: nat)
    requires Valid(c) && Feasible(c, run) && c.revoke && n < |After(c, run).txs|
    requires Refreshing(After(c, run).txs[n].user)
    ensures ReadsAt(c, run, a, n) && After(c, run).txs[n].epoch == 1 + Ticks(run[..a])
  {
    RunStepEpoch(c, run, n);
    Prefixes(run);
    if Reads(After(c, Front(run)), Last(run), n) {
      a := |run| - 1;
    } else {
      a := ReadMoment(c, Front(run), n);
    }
  }

  /** A signed grant was signed at some step with the epoch of that step. */
  lemma {:induction false} SignMoment(c: Config, run: Run, r: nat) returns (b: nat)
    requires Valid(c) && Feasible(c, run) && c.revoke && r < |After(c, run).grants|
    requires Signed(After(c, run).grants[r])
    ensures SignsAt(c, run, b, r) && After(c, run).grants[r].signed == 1 + Ticks(run[..b])
  {
    RunStepSigned(c, run, r);
    Prefixes(run);
    if Signs(After(c, Front(run)), Last(run), r) {
      b := |run| - 1;
    } else {
      b := SignMoment(c, Front(run), r);
    }
  }

  /** From the step that reads it on, the epoch stays what it was then. */
  lemma {:induction false} ReadStays(c: Config, run: Run, n: nat, a: nat)
    requires Valid(c) && Feasible(c, run) && c.revoke && n < |After(c, run).txs| && ReadsAt(c, run, a, n)
    ensures Refreshing(After(c, run).txs[n].user) && After(c, run).txs[n].epoch == 1 + Ticks(run[..a])
  {
    RunStepEpoch(c, run, n);
    Prefixes(run);
    if a < |run| - 1 {
      ReadStays(c, Front(run), n, a);
    }
  }

  lemma {:induction false} SignStays(c: Config, run: Run, r: nat, b: nat)
    requires Valid(c) && Feasible(c, run) && c.revoke && r < |After(c, run).grants| && SignsAt(c, run, b, r)
    ensures Signed(After(c, run).grants[r]) && After(c, run).grants[r].signed == 1 + Ticks(run[..b])
  {
    RunStepSigned(c, run, r);
    Prefixes(run);
    if b < |run| - 1 {
      SignStays(c, Front(run), r, b);
    }
  }
}
