/** What the stale claim of the distributed variant does to its peers when revocation is on. */
module DistributedRevocation {
  import opened IdentityCache
  import opened DistributedPeer
  import opened Sums
  import H = DistributedHandle

  /** The peer looks at what this user submitted: the claimed epoch, and a proof made with its handle. */
  predicate Carries(tx: Tx, t: H.Tx) {
    tx.epoch == t.claimed && tx.revocationProof == MadeWith(t.handle)
  }

  /** Submission i of the run is its user's first. */
  ghost predicate IsFirst(users: nat, run: seq<H.Label>, i: nat)
    requires i < |H.After(H.Start(users), run).submitted|
  {
    var s := H.After(H.Start(users), run);
    H.Previous(s.submitted[..i], s.submitted[i].user) < 0
  }

  /** A user's first transaction never passes the handle check; a later one passes it if and only if the clock
      did not tick between the user's reading of the epoch for the transaction before and for this one. */
  lemma HandleCheckIff(users: nat, run: seq<H.Label>, i: nat, tx: Tx)
    requires i < |H.After(H.Start(users), run).submitted| && Carries(tx, H.After(H.Start(users), run).submitted[i])
    ensures var s := H.After(H.Start(users), run);
      var j := H.Previous(s.submitted[..i], s.submitted[i].user);
      if j < 0 then !RevocationVerifies(tx)
      else
        var a, b := H.ReadFor(users, run, j), H.ReadFor(users, run, i);
        0 <= a < b <= |run| && (RevocationVerifies(tx) <==> H.Ticks(run[a..b]) == 0)
  {
    H.ClaimsPreviousEpoch(users, run, i);
    H.ClaimMatchesIff(users, run, i);
  }

  /** With revocation no peer accepts a user's first transaction, and one that finds nothing else wrong with it
      gives the handle as the reason. */
  lemma FirstIsNeverAccepted(users: nat, run: seq<H.Label>, i: nat, v: Verifier, s: Settings, tx: Tx, keys: seq<Key>)
    requires i < |H.After(H.Start(users), run).submitted| && Carries(tx, H.After(H.Start(users), run).submitted[i])
    requires IsFirst(users, run, i) && s.revoke
    ensures !Acceptable(v, s, tx, keys)
  {
    HandleCheckIff(users, run, i, tx);
  }

  /** Of a later transaction it accepts exactly what passes the other checks and had no tick in its window. */
  lemma LaterIsAcceptedIff(users: nat, run: seq<H.Label>, i: nat, v: Verifier, s: Settings, tx: Tx, keys: seq<Key>)
    requires i < |H.After(H.Start(users), run).submitted| && Carries(tx, H.After(H.Start(users), run).submitted[i])
    requires !IsFirst(users, run, i) && s.revoke
    ensures var submitted := H.After(H.Start(users), run).submitted;
      var j := H.Previous(submitted[..i], submitted[i].user);
      var a, b := H.ReadFor(users, run, j), H.ReadFor(users, run, i);
      && 0 <= a < b <= |run|
      && (Acceptable(v, s, tx, keys) <==> OtherwiseAcceptable(v, s, tx, keys) && H.Ticks(run[a..b]) == 0)
  {
    HandleCheckIff(users, run, i, tx);
  }

  // ---- the life of a peer

  /** Calls of Validate run concurrently: one makes its checks, with whatever is in the cache by then, and
      appends its transaction at some later step. */
  datatype Action = Examine(call: nat, keys: seq<Key>) | Append(call: nat)

  /** Whether the process is still up, the calls whose checks have passed, and those recorded, in order. */
  datatype Life = Life(up: bool, passed: set<nat>, ledger: seq<nat>)

  /** A failed check ends the process, and with it every call that is under way. */
  ghost function Act(v: Verifier, s: Settings, txs: seq<Tx>, life: Life, a: Action): Life {
    if !life.up then life
    else
      match a
      case Examine(call, keys) =>
        if call >= |txs| || call in life.passed then life
        else if Acceptable(v, s, txs[call], keys) then life.(passed := life.passed + {call})
        else life.(up := false)
      case Append(call) =>
        if call in life.passed && call !in life.ledger then life.(ledger := life.ledger + [call]) else life
  }

  /** A peer that is asked to validate these transactions, its calls interleaved in this way. */
  ghost function Serve(v: Verifier, s: Settings, txs: seq<Tx>, schedule: seq<Action>): Life {
    if schedule == [] then Life(true, {}, [])
    else Act(v, s, txs, Serve(v, s, txs, schedule[..|schedule| - 1]), schedule[|schedule| - 1])
  }

  /** Step m finds the peer up and the call's transaction acceptable. */
  ghost predicate PassesAt(v: Verifier, s: Settings, txs: seq<Tx>, schedule: seq<Action>, m: nat, call: nat) {
    && m < |schedule| && schedule[m].Examine? && schedule[m].call == call < |txs|
    && Serve(v, s, txs, schedule[..m]).up && Acceptable(v, s, txs[call], schedule[m].keys)
  }

  /** Step j is the call's append, and finds the peer up. */
  ghost predicate AppendsAt(v: Verifier, s: Settings, txs: seq<Tx>, schedule: seq<Action>, j: nat, call: nat) {
    j < |schedule| && schedule[j] == Append(call) && Serve(v, s, txs, schedule[..j]).up
  }

  /** Step m finds the peer up and the transaction of a call that has not passed yet unacceptable. */
  ghost predicate FailsAt(v: Verifier, s: Settings, txs: seq<Tx>, schedule: seq<Action>, m: nat) {
    && m < |schedule| && schedule[m].Examine? && schedule[m].call < |txs|
    && var life := Serve(v, s, txs, schedule[..m]);
       life.up && schedule[m].call !in life.passed && !Acceptable(v, s, txs[schedule[m].call], schedule[m].keys)
  }

  /** A call has passed if and only if the peer was up and found its transaction acceptable at some step, and the
      peer is down if and only if it found one unacceptable. */
  lemma {:induction false} PassedIff(v: Verifier, s: Settings, txs: seq<Tx>, schedule: seq<Action>, call: nat)
    ensures call in Serve(v, s, txs, schedule).passed <==> exists m :: PassesAt(v, s, txs, schedule, m, call)
    ensures !Serve(v, s, txs, schedule).up <==> exists m :: FailsAt(v, s, txs, schedule, m)
  {
    if schedule != [] {
      var front, last := schedule[..|schedule| - 1], |schedule| - 1;
      PassedIff(v, s, txs, front, call);
      assert schedule[..last] == front;
      forall m | 0 <= m < last
        ensures PassesAt(v, s, txs, schedule, m, call) <==> PassesAt(v, s, txs, front, m, call)
        ensures FailsAt(v, s, txs, schedule, m) <==> FailsAt(v, s, txs, front, m)
      {
        assert schedule[..m] == front[..m];
      }
      assert PassesAt(v, s, txs, schedule, last, call) ==> call in Serve(v, s, txs, schedule).passed;
      assert FailsAt(v, s, txs, schedule, last) ==> !Serve(v, s, txs, schedule).up;
    }
  }

  lemma MomentsStay(v: Verifier, s: Settings, txs: seq<Tx>, schedule: seq<Action>, call: nat)
    requires schedule != []
    ensures var front := schedule[..|schedule| - 1];
      forall m :: 0 <= m < |front| ==>
        && (PassesAt(v, s, txs, schedule, m, call) <==> PassesAt(v, s, txs, front, m, call))
        && (AppendsAt(v, s, txs, schedule, m, call) <==> AppendsAt(v, s, txs, front, m, call))
  {
    var front := schedule[..|schedule| - 1];
    forall m | 0 <= m < |front|
      ensures PassesAt(v, s, txs, schedule, m, call) <==> PassesAt(v, s, txs, front, m, call)
      ensures AppendsAt(v, s, txs, schedule, m, call) <==> AppendsAt(v, s, txs, front, m, call)
    {
      assert schedule[..m] == front[..m];
    }
  }

  /** A transaction is recorded, and only once, if and only if its append came after such a step and found the peer
      up. */
  lemma {:induction false} RecordedIff(v: Verifier, s: Settings, txs: seq<Tx>, schedule: seq<Action>, call: nat)
    ensures call in Serve(v, s, txs, schedule).ledger <==>
              exists m, j :: m < j && PassesAt(v, s, txs, schedule, m, call) && AppendsAt(v, s, txs, schedule, j, call)
    ensures NoRepeat(Serve(v, s, txs, schedule).ledger)
  {
    if schedule != [] {
      var front, last := schedule[..|schedule| - 1], |schedule| - 1;
      RecordedIff(v, s, txs, front, call);
      PassedIff(v, s, txs, front, call);
      assert schedule[..last] == front;
      MomentsStay(v, s, txs, schedule, call);
      if AppendsAt(v, s, txs, schedule, last, call) && call in Serve(v, s, txs, front).passed {
        var m :| PassesAt(v, s, txs, front, m, call);
        assert PassesAt(v, s, txs, schedule, m, call);
      }
    }
  }

  ghost predicate NeverAcceptable(v: Verifier, s: Settings, tx: Tx) {
    forall keys :: !Acceptable(v, s, tx, keys)
  }

  lemma {:induction false} NeverRecorded(v: Verifier, s: Settings, txs: seq<Tx>, schedule: seq<Action>, k: nat)
    requires k < |txs| && NeverAcceptable(v, s, txs[k])
    ensures var life := Serve(v, s, txs, schedule);
      k !in life.passed && forall call :: call in life.ledger ==> call in life.passed
  {
    if schedule != [] {
      NeverRecorded(v, s, txs, schedule[..|schedule| - 1], k);
    }
  }

  lemma {:induction false} DownForGood(v: Verifier, s: Settings, txs: seq<Tx>, schedule: seq<Action>, m: nat)
    requires m <= |schedule| && !Serve(v, s, txs, schedule[..m]).up
    ensures Serve(v, s, txs, schedule) == Serve(v, s, txs, schedule[..m])
  {
    if m == |schedule| {
      assert schedule[..m] == schedule;
    } else {
      var front := schedule[..|schedule| - 1];
      assert front[..m] == schedule[..m];
      DownForGood(v, s, txs, front, m);
    }
  }

  /** However its calls interleave, a peer is down for good once it has looked at some user's first transaction:
      it never records that one, and nothing any more after that step. */
  lemma FirstTransactionStopsPeer(users: nat, run: seq<H.Label>, i: nat, v: Verifier, s: Settings, txs: seq<Tx>,
                                  schedule: seq<Action>, m: nat)
    requires i < |H.After(H.Start(users), run).submitted| && IsFirst(users, run, i) && s.revoke
    requires m < |schedule| && schedule[m].Examine? && schedule[m].call < |txs|
    requires Carries(txs[schedule[m].call], H.After(H.Start(users), run).submitted[i])
    ensures var life := Serve(v, s, txs, schedule);
      !life.up && schedule[m].call !in life.ledger && life.ledger == Serve(v, s, txs, schedule[..m]).ledger
  {
    var k := schedule[m].call;
    forall keys ensures !Acceptable(v, s, txs[k], keys) {
      FirstIsNeverAccepted(users, run, i, v, s, txs[k], keys);
    }
    NeverRecorded(v, s, txs, schedule[..m], k);
    assert schedule[..m + 1][..m] == schedule[..m];
    DownForGood(v, s, txs, schedule, m + 1);
  }
}
