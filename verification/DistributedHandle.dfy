/** Non-revocation handles in the distributed variant: any number of users, each asking the authority for the
    epoch and then, if it changed, for a handle, while the authority's clock ticks. */
module DistributedHandle {

  datatype Handle = None | Signed(epoch: int)

  /** Where submitTransaction is. The claimed epoch, stamped on the transaction, is the user's epoch from
      before the update. Fatal is the process that gave up on its handle. */
  datatype Pc =
    | Idle
    | Stamped(claimed: int)
    | Requesting(claimed: int)
    | Granted(claimed: int, signed: int)
    | Ready(claimed: int)
    | Fatal

  datatype User = User(epoch: int, handle: Handle, pc: Pc)

  /** A submitted transaction: the epoch it claims, and the epoch and the handle its proof was made with. */
  datatype Tx = Tx(user: nat, claimed: int, proven: int, handle: Handle)

  datatype System = System(epoch: int, users: seq<User>, submitted: seq<Tx>)

  datatype Label = Tick | Move(user: nat)

  function Start(users: nat): System {
    System(1, seq(users, _ => User(-1, None, Idle)), [])
  }

  function SetUser(s: System, u: nat, user: User): System
    requires u < |s.users|
  {
    s.(users := s.users[u := user])
  }

  function Next(s: System, l: Label): System {
    match l
    case Tick => s.(epoch := s.epoch + 1)
    case Move(u) => if u < |s.users| then MoveUser(s, u) else s
  }

  function MoveUser(s: System, u: nat): System
    requires u < |s.users|
  {
    var user := s.users[u];
    match user.pc
    case Idle => SetUser(s, u, user.(pc := Stamped(user.epoch)))
    case Stamped(claimed) =>
      if user.epoch != s.epoch then SetUser(s, u, user.(epoch := s.epoch, pc := Requesting(claimed)))
      else SetUser(s, u, user.(pc := Ready(claimed)))
    case Requesting(claimed) => SetUser(s, u, user.(pc := Granted(claimed, s.epoch)))
    case Granted(claimed, signed) =>
      if signed == user.epoch then SetUser(s, u, user.(handle := Signed(signed), pc := Ready(claimed)))
      else SetUser(s, u, user.(pc := Fatal))
    case Ready(claimed) =>
      SetUser(s, u, user.(pc := Idle)).(submitted := s.submitted + [Tx(u, claimed, user.epoch, user.handle)])
    case Fatal => s
  }

  function After(s: System, run: seq<Label>): System {
    if run == [] then s else Next(After(s, run[..|run| - 1]), run[|run| - 1])
  }

  function Ticks(run: seq<Label>): nat {
    if run == [] then 0 else Ticks(run[..|run| - 1]) + if run[|run| - 1].Tick? then 1 else 0
  }

  // ---- the update as the user's own method

  class Authority {
    var epoch: int

    constructor ()
      ensures epoch == 1
    {
      epoch := 1;
    }

    method Advance()
      modifies this
      ensures epoch == old(epoch) + 1
    {
      epoch := epoch + 1;
    }

    method GetEpoch() returns (reply: int)
      ensures reply == epoch
    {
      reply := epoch;
    }

    method ProcessNRR() returns (handle: Handle)
      ensures handle == Signed(epoch)
    {
      handle := Signed(epoch);
    }
  }

  class Client {
    var epoch: int
    var nrh: Handle

    constructor ()
      ensures epoch == -1 && nrh == None
    {
      epoch, nrh := -1, None;
    }

    /** The update, with the clock ticking the given number of times between its two calls. It returns
        exactly when no new handle is needed or no tick fell in between; then the stored handle is signed for
        the stored epoch, which is the one the authority announced. */
    method UpdateNRH(authority: Authority, ticks: nat) returns (ok: bool)
      requires nrh == (if epoch == -1 then None else Signed(epoch)) && authority.epoch >= 1
      modifies this, authority
      ensures ok <==> old(epoch) == old(authority.epoch) || ticks == 0
      ensures epoch == old(authority.epoch) && authority.epoch >= old(authority.epoch)
      ensures nrh == if ok then Signed(epoch) else old(nrh)
    {
      var announced := authority.GetEpoch();
      if epoch == announced {
        return true;
      }
      epoch := announced;
      for i := 0 to ticks
        invariant authority.epoch == old(authority.epoch) + i
        invariant epoch == announced && nrh == old(nrh)
      {
        authority.Advance();
      }
      var handle := authority.ProcessNRR();
      if handle != Signed(epoch) {
        return false;
      }
      nrh := handle;
      return true;
    }
  }

  // ---- the invariant

  function HandleFor(epoch: int): Handle {
    if epoch == -1 then None else Signed(epoch)
  }

  /** The epoch proven by the last transaction of this user, -1 before the first. */
  function LastProven(submitted: seq<Tx>, u: nat): int {
    if submitted == [] then -1
    else if submitted[|submitted| - 1].user == u then submitted[|submitted| - 1].proven
    else LastProven(submitted[..|submitted| - 1], u)
  }

  /** What holds of a user whose last transaction proved `last`, when the clock is at `clock`. */
  ghost predicate Consistent(user: User, last: int, clock: int) {
    && (last == -1 || last >= 1)
    && match user.pc
       case Idle => last == user.epoch <= clock && user.handle == HandleFor(last)
       case Stamped(claimed) => claimed == last == user.epoch <= clock && user.handle == HandleFor(last)
       case Requesting(claimed) =>
         claimed == last < user.epoch <= clock && user.epoch >= 1 && user.handle == HandleFor(last)
       case Granted(claimed, signed) =>
         claimed == last < user.epoch <= signed <= clock && user.epoch >= 1 && user.handle == HandleFor(last)
       case Ready(claimed) =>
         claimed == last <= user.epoch <= clock && user.epoch >= 1 && user.handle == Signed(user.epoch)
       case Fatal => true
  }

  ghost predicate UserHolds(s: System, u: nat)
    requires u < |s.users|
  {
    Consistent(s.users[u], LastProven(s.submitted, u), s.epoch)
  }

  ghost predicate TxHolds(s: System, i: nat)
    requires i < |s.submitted|
  {
    var t := s.submitted[i];
    && t.claimed == LastProven(s.submitted[..i], t.user)
    && t.claimed <= t.proven && 1 <= t.proven <= s.epoch
    && t.handle == Signed(t.proven)
  }

  ghost predicate Inv(s: System) {
    && s.epoch >= 1
    && (forall u :: 0 <= u < |s.users| ==> UserHolds(s, u))
    && forall i :: 0 <= i < |s.submitted| ==> TxHolds(s, i)
  }

  lemma LastProvenNext(s: System, l: Label, u: nat)
    requires u < |s.users|
    ensures LastProven(Next(s, l).submitted, u) ==
              if l == Move(u) && s.users[u].pc.Ready? then s.users[u].epoch else LastProven(s.submitted, u)
  {
    if l.Move? && l.user < |s.users| && s.users[l.user].pc.Ready? {
      var more := Next(s, l).submitted;
      assert more[..|more| - 1] == s.submitted;
    }
  }

  lemma MoveIsConsistent(s: System, u: nat, last: int)
    requires u < |s.users| && s.epoch >= 1 && Consistent(s.users[u], last, s.epoch)
    ensures Consistent(MoveUser(s, u).users[u], if s.users[u].pc.Ready? then s.users[u].epoch else last, s.epoch)
  {
    match s.users[u].pc { case _ => }
  }

  lemma NextKeepsUsers(s: System, l: Label, u: nat)
    requires u < |s.users| && s.epoch >= 1 && UserHolds(s, u)
    ensures UserHolds(Next(s, l), u)
  {
    LastProvenNext(s, l, u);
    if l == Move(u) {
      MoveIsConsistent(s, u, LastProven(s.submitted, u));
    }
  }

  lemma NextKeepsTxs(s: System, l: Label, i: nat)
    requires Inv(s) && i < |Next(s, l).submitted|
    ensures TxHolds(Next(s, l), i)
  {
    var s' := Next(s, l);
    if i < |s.submitted| {
      assert TxHolds(s, i) && s'.submitted[..i] == s.submitted[..i];
    } else {
      assert UserHolds(s, l.user) && s'.submitted[..i] == s.submitted;
    }
  }

  lemma NextKeepsInv(s: System, l: Label)
    requires Inv(s)
    ensures Inv(Next(s, l))
  {
    forall u | 0 <= u < |Next(s, l).users| ensures UserHolds(Next(s, l), u) {
      NextKeepsUsers(s, l, u);
    }
    forall i | 0 <= i < |Next(s, l).submitted| ensures TxHolds(Next(s, l), i) {
      NextKeepsTxs(s, l, i);
    }
  }

  lemma {:induction false} RunInv(users: nat, run: seq<Label>)
    ensures Inv(After(Start(users), run))
  {
    if run != [] {
      RunInv(users, run[..|run| - 1]);
      NextKeepsInv(After(Start(users), run[..|run| - 1]), run[|run| - 1]);
    }
  }

  // ---- the theorems

  /** Whenever a user is past its update, under every interleaving, its handle was signed for exactly the
      epoch it works with, which the authority has reached. */
  lemma HandleMatchesEpoch(users: nat, run: seq<Label>, u: nat)
    requires u < users && u < |After(Start(users), run).users| && After(Start(users), run).users[u].pc.Ready?
    ensures var s := After(Start(users), run);
      s.users[u].handle == Signed(s.users[u].epoch) && 1 <= s.users[u].epoch <= s.epoch
  {
    RunInv(users, run);
    assert UserHolds(After(Start(users), run), u);
  }

  /** A transaction claims the epoch that the previous transaction of its user proved, and -1 if it is the
      first; it proves an epoch that is no older, with a handle signed for that epoch. */
  lemma ClaimsPreviousEpoch(users: nat, run: seq<Label>, i: nat)
    requires i < |After(Start(users), run).submitted|
    ensures var s := After(Start(users), run);
      var t := s.submitted[i];
      && t.claimed == LastProven(s.submitted[..i], t.user) <= t.proven
      && 1 <= t.proven <= s.epoch
      && t.handle == Signed(t.proven)
  {
    RunInv(users, run);
    assert TxHolds(After(Start(users), run), i);
  }

  // ---- the steps that read the epoch

  /** Step a of the run is the user's reading of the authority's epoch. */
  predicate ReadsAt(s: System, run: seq<Label>, a: int, u: nat) {
    && 0 <= a < |run| && run[a] == Move(u)
    && var before := After(s, run[..a]);
       u < |before.users| && before.users[u].pc.Stamped?
  }

  /** The last step of the run at which the user read the epoch, -1 if there is none. */
  function LastRead(s: System, run: seq<Label>, u: nat): int {
    if run == [] then -1
    else if ReadsAt(s, run, |run| - 1, u) then |run| - 1
    else LastRead(s, run[..|run| - 1], u)
  }

  function EpochRead(run: seq<Label>, a: int): int
    requires a <= |run|
  {
    if a < 0 then -1 else 1 + Ticks(run[..a])
  }

  lemma {:induction false} LastReadIs(s: System, run: seq<Label>, u: nat)
    ensures var a := LastRead(s, run, u); a == -1 || ReadsAt(s, run, a, u)
    ensures LastRead(s, run, u) < |run|
    ensures forall k :: 0 <= k <= |run| ==> LastRead(s, run[..k], u) <= LastRead(s, run, u)
  {
    if run != [] {
      var before := run[..|run| - 1];
      LastReadIs(s, before, u);
      var a := LastRead(s, before, u);
      if a >= 0 { assert before[..a] == run[..a]; }
      forall k | 0 <= k <= |run| ensures LastRead(s, run[..k], u) <= LastRead(s, run, u) {
        if k == |run| {
          assert run[..k] == run;
        } else {
          assert run[..k] == before[..k];
        }
      }
    } else {
      assert run[..0] == run;
    }
  }

  lemma {:induction false} ClockCounts(s: System, run: seq<Label>)
    ensures After(s, run).epoch == s.epoch + Ticks(run) && |After(s, run).users| == |s.users|
  {
    if run != [] {
      ClockCounts(s, run[..|run| - 1]);
    }
  }

  /** A user's epoch is the one of the clock when it last read it. */
  lemma {:induction false} EpochIsRead(users: nat, run: seq<Label>, u: nat)
    requires u < users
    ensures u < |After(Start(users), run).users|
    ensures LastRead(Start(users), run, u) < |run|
    ensures After(Start(users), run).users[u].epoch == EpochRead(run, LastRead(Start(users), run, u))
  {
    ClockCounts(Start(users), run);
    LastReadIs(Start(users), run, u);
    if run != [] {
      var before := run[..|run| - 1];
      ClockCounts(Start(users), before);
      EpochIsRead(users, before, u);
      var a := LastRead(Start(users), before, u);
      if a >= 0 { assert before[..a] == run[..a]; }
    }
  }

  /** The step that submitted transaction i. */
  function SubmittedAt(s: System, run: seq<Label>, i: nat): (k: nat)
    requires |s.submitted| <= i < |After(s, run).submitted|
    ensures k < |run|
  {
    var before := run[..|run| - 1];
    if i < |After(s, before).submitted| then SubmittedAt(s, before, i) else |run| - 1
  }

  /** The step that read the epoch for transaction i. */
  function ReadFor(users: nat, run: seq<Label>, i: nat): int
    requires i < |After(Start(users), run).submitted|
  {
    LastRead(Start(users), run[..SubmittedAt(Start(users), run, i)], After(Start(users), run).submitted[i].user)
  }

  /** Right before step k the user of transaction i was ready, and its epoch went into the transaction. */
  predicate Submits(users: nat, run: seq<Label>, i: nat, k: nat) {
    i < |After(Start(users), run).submitted| && k < |run| && var t := After(Start(users), run).submitted[i];
    var before := After(Start(users), run[..k]);
    && |before.submitted| == i && t.user < users == |before.users|
    && before.users[t.user].pc.Ready? && t.proven == before.users[t.user].epoch
    && run[k] == Move(t.user)
    && before.submitted == After(Start(users), run).submitted[..i]
  }

  lemma LastSubmits(users: nat, run: seq<Label>, i: nat)
    requires run != [] && |After(Start(users), run[..|run| - 1]).submitted| <= i < |After(Start(users), run).submitted|
    ensures Submits(users, run, i, |run| - 1)
  {
    var before := After(Start(users), run[..|run| - 1]);
    ClockCounts(Start(users), run[..|run| - 1]);
    assert before.submitted == After(Start(users), run).submitted[..i];
  }

  lemma StillSubmits(users: nat, run: seq<Label>, i: nat, k: nat)
    requires run != [] && Submits(users, run[..|run| - 1], i, k)
    ensures Submits(users, run, i, k)
  {
    var front := run[..|run| - 1];
    assert front[..k] == run[..k];
    assert After(Start(users), front).submitted[..i] == After(Start(users), run).submitted[..i];
  }

  lemma {:induction false} SubmissionIs(users: nat, run: seq<Label>, i: nat)
    requires i < |After(Start(users), run).submitted|
    ensures Submits(users, run, i, SubmittedAt(Start(users), run, i))
  {
    var front := run[..|run| - 1];
    if i < |After(Start(users), front).submitted| {
      SubmissionIs(users, front, i);
      StillSubmits(users, run, i, SubmittedAt(Start(users), front, i));
    } else {
      LastSubmits(users, run, i);
    }
  }

  /** Without a reading a user that is idle or has just stamped gets no further. */
  lemma {:induction false} NoReadNoProgress(s: System, run: seq<Label>, k: nat, u: nat)
    requires k <= |run| && u < |After(s, run[..k]).users| && LastRead(s, run, u) < k
    requires var pc := After(s, run[..k]).users[u].pc; pc.Idle? || pc.Stamped?
    ensures u < |After(s, run).users|
    ensures var pc := After(s, run).users[u].pc; pc.Idle? || pc.Stamped?
  {
    if k == |run| {
      assert run[..k] == run;
    } else {
      var before := run[..|run| - 1];
      assert before[..k] == run[..k];
      assert !ReadsAt(s, run, |run| - 1, u);
      NoReadNoProgress(s, before, k, u);
    }
  }

  // ---- when a transaction claims the epoch it proves

  /** The previous transaction of a user, -1 if there is none. */
  function Previous(submitted: seq<Tx>, u: nat): (j: int)
    ensures -1 <= j < |submitted|
    ensures j >= 0 ==> submitted[j].user == u
    ensures forall k :: j < k < |submitted| ==> submitted[k].user != u
    ensures LastProven(submitted, u) == if j < 0 then -1 else submitted[j].proven
  {
    if submitted == [] then -1
    else if submitted[|submitted| - 1].user == u then |submitted| - 1
    else Previous(submitted[..|submitted| - 1], u)
  }

  lemma ProvenIsRead(users: nat, run: seq<Label>, i: nat)
    requires i < |After(Start(users), run).submitted|
    ensures var t, a := After(Start(users), run).submitted[i], ReadFor(users, run, i);
      && ReadsAt(Start(users), run, a, t.user) && a < SubmittedAt(Start(users), run, i)
      && t.proven == 1 + Ticks(run[..a])
  {
    var t, k := After(Start(users), run).submitted[i], SubmittedAt(Start(users), run, i);
    SubmissionIs(users, run, i);
    EpochIsRead(users, run[..k], t.user);
    LastReadIs(Start(users), run[..k], t.user);
    ClaimsPreviousEpoch(users, run, i);
    var a := ReadFor(users, run, i);
    assert run[..k][..a] == run[..a];
  }

  lemma SubmissionsInOrder(s: System, run: seq<Label>, j: nat, i: nat)
    requires |s.submitted| <= j < i < |After(s, run).submitted|
    ensures SubmittedAt(s, run, j) < SubmittedAt(s, run, i)
  {
    var before := run[..|run| - 1];
    if i < |After(s, before).submitted| {
      SubmissionsInOrder(s, before, j, i);
    }
  }

  /** Right after its submission the user is idle. */
  lemma IdleAfterSubmission(users: nat, run: seq<Label>, j: nat)
    requires j < |After(Start(users), run).submitted|
    ensures var m, u := SubmittedAt(Start(users), run, j), After(Start(users), run).submitted[j].user;
      && u < |After(Start(users), run[..m + 1]).users|
      && After(Start(users), run[..m + 1]).users[u].pc.Idle?
  {
    var m := SubmittedAt(Start(users), run, j);
    SubmissionIs(users, run, j);
    assert run[..m + 1][..m] == run[..m];
  }

  /** The user reads the epoch anew for its next transaction. */
  lemma ReadsInOrder(users: nat, run: seq<Label>, j: nat, i: nat)
    requires j < i < |After(Start(users), run).submitted|
    requires After(Start(users), run).submitted[j].user == After(Start(users), run).submitted[i].user
    ensures ReadFor(users, run, j) < ReadFor(users, run, i)
  {
    var s, u := Start(users), After(Start(users), run).submitted[i].user;
    var m, k := SubmittedAt(s, run, j), SubmittedAt(s, run, i);
    SubmissionsInOrder(s, run, j, i);
    IdleAfterSubmission(users, run, j);
    SubmissionIs(users, run, i);
    LastReadIs(s, run[..m], u);
    LastReadIs(s, run[..k], u);
    ReadIsLater(s, run, m, k, u);
  }

  /** A user that was idle after step m and is ready before step k has read in between. */
  lemma ReadIsLater(s: System, run: seq<Label>, m: nat, k: nat, u: nat)
    requires m < k <= |run| && u < |After(s, run[..m + 1]).users| && u < |After(s, run[..k]).users|
    requires After(s, run[..m + 1]).users[u].pc.Idle? && After(s, run[..k]).users[u].pc.Ready?
    requires LastRead(s, run[..m], u) < m
    ensures LastRead(s, run[..m], u) < LastRead(s, run[..k], u)
  {
    var before := run[..k];
    assert before[..m + 1] == run[..m + 1];
    if LastRead(s, before, u) <= m {
      NoReadNoProgress(s, before, m + 1, u);
    }
  }

  lemma {:induction false} TicksBetween(run: seq<Label>, a: nat, b: nat)
    requires a <= b <= |run|
    ensures Ticks(run[..b]) == Ticks(run[..a]) + Ticks(run[a..b])
  {
    if a < b {
      TicksBetween(run, a, b - 1);
      assert run[..b][..b - 1] == run[..b - 1] && run[a..b][..b - a - 1] == run[a..b - 1];
    }
  }

  /** A user's first transaction claims -1 and never the epoch it proves. A later one is behind by the ticks
      between the reading for the transaction before and its own reading: it claims the epoch it proves if and
      only if the clock did not tick in between. */
  lemma ClaimMatchesIff(users: nat, run: seq<Label>, i: nat)
    requires i < |After(Start(users), run).submitted|
    ensures var s := After(Start(users), run);
      var t := s.submitted[i];
      var j := Previous(s.submitted[..i], t.user);
      if j < 0 then t.claimed == -1 && t.claimed != t.proven
      else
        var a, b := ReadFor(users, run, j), ReadFor(users, run, i);
        && ReadsAt(Start(users), run, a, t.user) && ReadsAt(Start(users), run, b, t.user) && a < b
        && t.proven - t.claimed == Ticks(run[a..b])
        && (t.claimed == t.proven <==> Ticks(run[a..b]) == 0)
  {
    var s := After(Start(users), run);
    var j := Previous(s.submitted[..i], s.submitted[i].user);
    ClaimsPreviousEpoch(users, run, i);
    if j >= 0 {
      ProvenIsRead(users, run, j);
      ProvenIsRead(users, run, i);
      ReadsInOrder(users, run, j, i);
      TicksBetween(run, ReadFor(users, run, j), ReadFor(users, run, i));
    }
  }

  /** What the others do touches neither this user nor, but for the ticks, the epoch. */
  lemma {:induction false} OthersLeaveAlone(s: System, run: seq<Label>, u: nat)
    requires u < |s.users| && forall i :: 0 <= i < |run| ==> run[i] != Move(u)
    ensures |After(s, run).users| == |s.users| && After(s, run).users[u] == s.users[u]
    ensures After(s, run).epoch == s.epoch + Ticks(run)
  {
    if run != [] {
      OthersLeaveAlone(s, run[..|run| - 1], u);
    }
  }

  /** Whatever the other users do meanwhile: an update that asked for a handle right after learning the epoch
      succeeds if and only if the clock did not tick between its two calls. */
  lemma UpdateSucceedsIff(s: System, before: seq<Label>, after: seq<Label>, u: nat)
    requires u < |s.users| && s.users[u].pc.Stamped? && s.users[u].epoch != s.epoch
    requires forall i :: 0 <= i < |before| ==> before[i] != Move(u)
    requires forall i :: 0 <= i < |after| ==> after[i] != Move(u)
    ensures var asked := MoveUser(s, u);
      var waiting := After(asked, before);
      u < |waiting.users| && var signed := After(MoveUser(waiting, u), after);
      u < |signed.users| && var user := MoveUser(signed, u).users[u];
      && (Ticks(before) == 0 ==>
            user == User(s.epoch, Signed(s.epoch), Ready(s.users[u].pc.claimed)))
      && (Ticks(before) > 0 ==> user.pc.Fatal? && user.handle == s.users[u].handle)
  {
    var asked := MoveUser(s, u);
    OthersLeaveAlone(asked, before, u);
    OthersLeaveAlone(MoveUser(After(asked, before), u), after, u);
  }
}
