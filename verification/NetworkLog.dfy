/** The network log read as a record of when things happened: every time in it is the clock's at one step. */
module NetworkLog {
  import opened Arithmetic
  import opened Bandwidth

  // ---- the clock

  function Delays(actions: seq<Action>): nat {
    if actions == [] then 0
    else
      var a := actions[|actions| - 1];
      Delays(actions[..|actions| - 1]) + if a.Advance? then a.delay else 0
  }

  /** The clock shows the time that has passed, and nothing else moves it. */
  lemma {:induction false} ClockIs(b: Limits, actions: seq<Action>)
    requires b.Valid()
    ensures After(b, actions).now == Delays(actions)
  {
    if actions != [] {
      ClockIs(b, actions[..|actions| - 1]);
    }
  }

  /** The wait is the number of milliseconds at the bandwidth, cut to a whole number. */
  lemma WaitIs(size: nat, bandwidth: nat, w: nat)
    requires bandwidth > 0
    ensures w == WaitTime(size, bandwidth) <==> w * bandwidth <= 1000 * size < (w + 1) * bandwidth
  {
    var x := 1000 * size;
    assert (w + 1) * bandwidth == w * bandwidth + bandwidth;
    if w * bandwidth <= x < (w + 1) * bandwidth {
      Euclid(x, w, x - w * bandwidth, bandwidth);
    }
  }

  // ---- transfers

  lemma StepKeepsTransfers(b: Limits, n: Network, a: Action)
    requires b.Valid()
    ensures n.transfers <= Step(b, n, a).transfers && n.log <= Step(b, n, a).log
  {
  }

  lemma {:induction false} Grows(b: Limits, actions: seq<Action>, k: nat)
    requires b.Valid() && k <= |actions|
    ensures After(b, actions[..k]).transfers <= After(b, actions).transfers
    ensures After(b, actions[..k]).log <= After(b, actions).log
  {
    if k == |actions| {
      assert actions[..k] == actions;
    } else {
      var front := actions[..|actions| - 1];
      assert front[..k] == actions[..k];
      Grows(b, front, k);
      StepKeepsTransfers(b, After(b, front), actions[|actions| - 1]);
    }
  }

  lemma StepAt(b: Limits, actions: seq<Action>, k: nat)
    requires b.Valid() && k < |actions|
    ensures After(b, actions[..k + 1]) == Step(b, After(b, actions[..k]), actions[k])
  {
    assert actions[..k + 1][..k] == actions[..k];
  }

  /** A transfer starts at the moment it is begun. */
  lemma BegunAt(b: Limits, actions: seq<Action>, k: nat)
    requires b.Valid() && k < |actions| && actions[k].Begin?
    ensures var e, n := |After(b, actions[..k]).transfers|, After(b, actions);
      && e < |n.transfers|
      && n.transfers[e] == Transfer(actions[k].packet, actions[k].size, Delays(actions[..k]))
  {
    StepAt(b, actions, k);
    ClockIs(b, actions[..k]);
    Grows(b, actions, k + 1);
  }

  // ---- holders

  /** The holder took its lock at step i, and gave it back at step j. */
  ghost predicate TakenAt(b: Limits, actions: seq<Action>, h: nat, i: nat, since: nat)
    requires b.Valid()
  {
    && i < |actions| && actions[i] == Acquire(h) && Can(After(b, actions[..i]), Acquire(h))
    && since == Delays(actions[..i])
  }

  ghost predicate ReleasedAt(b: Limits, actions: seq<Action>, h: nat, j: nat, until: nat)
    requires b.Valid()
  {
    && j < |actions| && actions[j] == Release(h) && Can(After(b, actions[..j]), Release(h))
    && until == Delays(actions[..j])
  }

  ghost predicate TimedBy(b: Limits, actions: seq<Action>, h: nat, stage: Stage)
    requires b.Valid()
  {
    match stage
    case Queued => true
    case Held(since) => exists i :: TakenAt(b, actions, h, i, since)
    case Released(since, until) =>
      exists i, j :: i < j && TakenAt(b, actions, h, i, since) && ReleasedAt(b, actions, h, j, until)
  }

  lemma StillTimed(b: Limits, actions: seq<Action>, h: nat, stage: Stage)
    requires b.Valid() && actions != [] && TimedBy(b, actions[..|actions| - 1], h, stage)
    ensures TimedBy(b, actions, h, stage)
  {
    var front := actions[..|actions| - 1];
    assert forall i :: 0 <= i < |front| ==> front[..i] == actions[..i] && front[i] == actions[i];
    match stage
    case Queued =>
    case Held(since) =>
      var i :| TakenAt(b, front, h, i, since);
      assert TakenAt(b, actions, h, i, since);
    case Released(since, until) =>
      var i, j :| i < j && TakenAt(b, front, h, i, since) && ReleasedAt(b, front, h, j, until);
      assert TakenAt(b, actions, h, i, since) && ReleasedAt(b, actions, h, j, until);
  }

  /** A step that changes the stage of a holder is its own. */
  lemma StageMoves(b: Limits, n: Network, a: Action, h: nat)
    requires b.Valid() && h < |Step(b, n, a).holders|
    ensures var stage := Step(b, n, a).holders[h].stage;
      || stage.Queued?
      || (h < |n.holders| && stage == n.holders[h].stage)
      || (a == Acquire(h) && Can(n, a) && stage == Held(n.now))
      || (a == Release(h) && Can(n, a) && n.holders[h].stage.Held?
          && stage == Released(n.holders[h].stage.since, n.now))
  {
  }

  lemma LastMoves(b: Limits, actions: seq<Action>, h: nat, stage: Stage)
    requires b.Valid() && actions != []
    requires var front, a := actions[..|actions| - 1], actions[|actions| - 1];
      var n := After(b, front);
      || (a == Acquire(h) && Can(n, a) && stage == Held(n.now))
      || (a == Release(h) && Can(n, a) && n.holders[h].stage.Held? && stage == Released(n.holders[h].stage.since, n.now)
          && TimedBy(b, front, h, n.holders[h].stage))
    ensures TimedBy(b, actions, h, stage)
  {
    var front, k := actions[..|actions| - 1], |actions| - 1;
    ClockIs(b, front);
    assert actions[..k] == front;
    if stage.Held? {
      assert TakenAt(b, actions, h, k, stage.since);
    } else {
      StillTimed(b, actions, h, After(b, front).holders[h].stage);
      var i: nat :| i < k && TakenAt(b, actions, h, i, stage.since);
      assert ReleasedAt(b, actions, h, k, stage.until);
    }
  }

  /** A holder has its lock from the moment it takes it to the moment it gives it back. */
  lemma {:induction false} HoldIsTimed(b: Limits, actions: seq<Action>, h: nat)
    requires b.Valid() && h < |After(b, actions).holders|
    ensures TimedBy(b, actions, h, After(b, actions).holders[h].stage)
  {
    if actions != [] {
      var front, a := actions[..|actions| - 1], actions[|actions| - 1];
      var n := After(b, front);
      StageMoves(b, n, a, h);
      if h < |n.holders| {
        HoldIsTimed(b, front, h);
        if After(b, actions).holders[h].stage == n.holders[h].stage {
          StillTimed(b, actions, h, n.holders[h].stage);
        } else {
          LastMoves(b, actions, h, After(b, actions).holders[h].stage);
        }
      }
    }
  }

  // ---- log entries

  /** Recording a transfer leaves an entry with the next number, its start, and the moment of the recording. */
  lemma RecordedAt(b: Limits, actions: seq<Action>, k: nat)
    requires b.Valid() && k < |actions| && actions[k].Record? && Can(After(b, actions[..k]), actions[k])
    ensures var before, n, e := After(b, actions[..k]), After(b, actions), actions[k].transfer;
      && |before.log| < |n.log| && e < |n.transfers|
      && n.log[|before.log|] == LogEntry(|before.log| + 1, e, n.transfers[e].start, Delays(actions[..k]))
  {
    RunIsGood(b, actions[..k]);
    StepAt(b, actions, k);
    ClockIs(b, actions[..k]);
    Grows(b, actions, k);
    Grows(b, actions, k + 1);
  }

  /** And every entry was left so: the end in it is the clock's time when its three holders were back. */
  lemma {:induction false} EntryMoment(b: Limits, actions: seq<Action>, i: nat) returns (k: nat)
    requires b.Valid() && i < |After(b, actions).log|
    ensures k < |actions| && actions[k] == Record(After(b, actions).log[i].transfer)
    ensures Can(After(b, actions[..k]), actions[k]) && |After(b, actions[..k]).log| == i
    ensures After(b, actions).log[i].end == Delays(actions[..k])
  {
    var front := actions[..|actions| - 1];
    if i < |After(b, front).log| {
      k := EntryMoment(b, front, i);
      assert front[..k] == actions[..k];
    } else {
      k := |actions| - 1;
      ClockIs(b, front);
      assert actions[..k] == front;
    }
  }

  lemma {:induction false} DelaysGrow(actions: seq<Action>, k: nat)
    requires k <= |actions|
    ensures Delays(actions[..k]) <= Delays(actions)
  {
    if k == |actions| {
      assert actions[..k] == actions;
    } else {
      assert actions[..|actions| - 1][..k] == actions[..k];
      DelaysGrow(actions[..|actions| - 1], k);
    }
  }

  /** No entry is shorter than its size needs on either bandwidth, and none ends in the future. */
  lemma EntryLasts(b: Limits, actions: seq<Action>, i: nat)
    requires b.Valid() && i < |After(b, actions).log|
    ensures var n := After(b, actions);
      && n.log[i].transfer < |n.transfers|
      && var t := n.transfers[n.log[i].transfer];
      && n.log[i].start == t.start <= n.log[i].end <= n.now
      && (n.log[i].end - t.start + 1) * b.local > 1000 * t.size
      && (n.log[i].end - t.start + 1) * b.global > 1000 * t.size
  {
    var n := After(b, actions);
    LogIsFaithful(b, actions, i, i);
    var t := n.transfers[n.log[i].transfer];
    LongEnough(n.log[i].end - t.start, t.size, b.local);
    LongEnough(n.log[i].end - t.start, t.size, b.global);
    var k := EntryMoment(b, actions, i);
    ClockIs(b, actions);
    DelaysGrow(actions, k);
  }

  lemma LongEnough(time: nat, size: nat, bandwidth: nat)
    requires bandwidth > 0 && time >= WaitTime(size, bandwidth)
    ensures (time + 1) * bandwidth > 1000 * size
  {
    var w := WaitTime(size, bandwidth);
    WaitIs(size, bandwidth, w);
    assert (time + 1) * bandwidth == (w + 1) * bandwidth + (time - w) * bandwidth;
  }

  // ---- logging without delay

  /** Nobody who is back waits for the log while time passes. */
  ghost predicate LogsAtOnce(n: Network, a: Action) {
    a.Advance? && a.delay > 0 ==> forall e :: 0 <= e < |n.transfers| && Back(n, e) ==> Logged(n, e)
  }

  ghost predicate AllLoggedAtOnce(b: Limits, actions: seq<Action>)
    requires b.Valid()
  {
    forall k :: 0 <= k < |actions| ==> LogsAtOnce(After(b, actions[..k]), actions[k])
  }

  /** The time at which the last of the three holders gave its lock back. */
  function LastBack(n: Network, e: nat): nat
    requires Back(n, e)
  {
    var x, y, z := n.holders[3 * e].stage.until, n.holders[3 * e + 1].stage.until, n.holders[3 * e + 2].stage.until;
    if x >= y && x >= z then x else if y >= z then y else z
  }

  /** Who is back and not logged came back just now. */
  ghost predicate JustBack(n: Network) {
    forall e :: 0 <= e < |n.transfers| && Back(n, e) && !Logged(n, e) ==> LastBack(n, e) == n.now
  }

  lemma LoggedStays(b: Limits, n: Network, a: Action, e: nat)
    requires b.Valid() && Logged(n, e)
    ensures Logged(Step(b, n, a), e)
  {
    var i :| 0 <= i < |n.log| && n.log[i].transfer == e;
    assert Step(b, n, a).log[i] == n.log[i];
  }

  lemma StepKeepsJustBack(b: Limits, n: Network, a: Action)
    requires b.Valid() && AllSlept(n) && JustBack(n) && LogsAtOnce(n, a) && |n.holders| == 3 * |n.transfers|
    ensures JustBack(Step(b, n, a))
  {
    var n' := Step(b, n, a);
    forall e | 0 <= e < |n'.transfers| && Back(n', e) && !Logged(n', e) ensures LastBack(n', e) == n'.now {
      BackNow(b, n, a, e);
    }
  }

  lemma BackNow(b: Limits, n: Network, a: Action, e: nat)
    requires b.Valid() && AllSlept(n) && JustBack(n) && LogsAtOnce(n, a) && |n.holders| == 3 * |n.transfers|
    requires e < |Step(b, n, a).transfers| && Back(Step(b, n, a), e) && !Logged(Step(b, n, a), e)
    ensures LastBack(Step(b, n, a), e) == Step(b, n, a).now
  {
    if Logged(n, e) {
      LoggedStays(b, n, a, e);
    }
    if e < |n.transfers| {
      assert Slept(n, n.holders[3 * e]) && Slept(n, n.holders[3 * e + 1]) && Slept(n, n.holders[3 * e + 2]);
      if Can(n, a) && a.Release? && a.holder / 3 == e {
        assert a.holder == 3 * e || a.holder == 3 * e + 1 || a.holder == 3 * e + 2;
      } else {
        assert Back(n, e);
      }
    }
  }

  lemma {:induction false} RunIsJustBack(b: Limits, actions: seq<Action>)
    requires b.Valid() && AllLoggedAtOnce(b, actions)
    ensures JustBack(After(b, actions))
  {
    if actions != [] {
      var front, a := actions[..|actions| - 1], actions[|actions| - 1];
      forall k | 0 <= k < |front| ensures LogsAtOnce(After(b, front[..k]), front[k]) {
        assert front[..k] == actions[..k];
      }
      RunIsJustBack(b, front);
      RunIsGood(b, front);
      assert actions[..|front|] == front;
      assert LogsAtOnce(After(b, front), a);
      StepKeepsJustBack(b, After(b, front), a);
    }
  }

  lemma HoldersStay(b: Limits, n: Network, a: Action, e: nat)
    requires b.Valid() && Back(n, e)
    ensures Back(Step(b, n, a), e) && LastBack(Step(b, n, a), e) == LastBack(n, e)
  {
  }

  lemma {:induction false} BackStays(b: Limits, actions: seq<Action>, k: nat, e: nat)
    requires b.Valid() && k <= |actions| && Back(After(b, actions[..k]), e)
    ensures Back(After(b, actions), e) && LastBack(After(b, actions), e) == LastBack(After(b, actions[..k]), e)
  {
    if k == |actions| {
      assert actions[..k] == actions;
    } else {
      var front := actions[..|actions| - 1];
      assert front[..k] == actions[..k];
      BackStays(b, front, k, e);
      HoldersStay(b, After(b, front), actions[|actions| - 1], e);
    }
  }

  lemma PrefixAtOnce(b: Limits, actions: seq<Action>, k: nat)
    requires b.Valid() && AllLoggedAtOnce(b, actions) && k <= |actions|
    ensures AllLoggedAtOnce(b, actions[..k])
  {
    forall j | 0 <= j < k ensures LogsAtOnce(After(b, actions[..k][..j]), actions[..k][j]) {
      assert actions[..k][..j] == actions[..j];
    }
  }

  lemma BackWhenRecorded(b: Limits, actions: seq<Action>, e: nat)
    requires b.Valid() && AllLoggedAtOnce(b, actions) && Can(After(b, actions), Record(e))
    ensures Back(After(b, actions), e) && LastBack(After(b, actions), e) == Delays(actions)
  {
    RunIsJustBack(b, actions);
    ClockIs(b, actions);
  }

  /** Then the end in the log is exactly the time at which the last of the three locks was given back. */
  lemma EndsWhenBack(b: Limits, actions: seq<Action>, i: nat)
    requires b.Valid() && AllLoggedAtOnce(b, actions) && i < |After(b, actions).log|
    ensures var n := After(b, actions);
      Back(n, n.log[i].transfer) && n.log[i].end == LastBack(n, n.log[i].transfer)
  {
    var k := EntryMoment(b, actions, i);
    var e := actions[k].transfer;
    PrefixAtOnce(b, actions, k);
    BackWhenRecorded(b, actions[..k], e);
    BackStays(b, actions, k, e);
  }
}
