/** What a finished transaction and a joined simulation guarantee, read off the invariant. */
module Guarantees {
  import opened Sums
  import opened Endorsers
  import opened Events
  import opened Protocol
  import opened Accounts
  import opened Invariant

  // ---- finished transactions

  /** Everything a transaction started has replied. */
  ghost predicate Complete(c: Config, t: Tx) {
    && TxShape(c, t)
    && |t.answers| == t.taken == c.endorsements && |t.commits| == c.peers && t.order.Gone?
    && (forall i :: 0 <= i < c.endorsements ==> Replied(t.endorse[i]))
    && (forall p :: 0 <= p < c.peers ==> Replied(t.validate[p]))
  }

  lemma DoneIsComplete(c: Config, t: Tx, g: Grant, epoch: nat)
    requires c.peers >= 1 && TxInv(c, t, g, epoch) && t.user.Done?
    ensures Complete(c, t)
    ensures c.revoke ==> Replied(g.pc) && t.epoch == t.handle == g.signed
  {
    LogBound(t.answers, c.endorsements);
    LogBound(t.commits, c.peers);
    assert Replied(t.validate[0]) && Replied(t.validate[c.peers - 1]);
  }

  /** After the join nothing is in flight except goroutines about to give a permit back. */
  ghost predicate Drained(c: Config, s: State)
    requires Shape(c, s)
  {
    && (forall n :: 0 <= n < |s.txs| ==> Complete(c, s.txs[n]))
    && (forall p :: 0 <= p < c.peers ==> !s.loops[p].Busy?)
    && !s.authority.Busy?
    && (c.revoke ==> forall r :: 0 <= r < |s.grants| ==> Replied(s.grants[r].pc))
  }

  lemma JoinedIsDrained(c: Config, s: State)
    requires Inv(c, s) && Joined(s.main)
    ensures Drained(c, s)
  {
    forall n | 0 <= n < |s.txs| ensures Complete(c, s.txs[n]) && (c.revoke ==> Replied(s.grants[c.users + n].pc)) {
      DoneIsComplete(c, s.txs[n], s.grants[c.users + n], s.epoch);
    }
    forall p | 0 <= p < c.peers ensures !s.loops[p].Busy? {
      assert LoopInv(c, s, p);
    }
    forall r | 0 <= r < |s.grants| && c.revoke ensures Replied(s.grants[r].pc) {
      if r >= c.users {
        var n := r - c.users;
        assert Complete(c, s.txs[n]);
        assert Replied(s.grants[c.users + n].pc);
      }
    }
  }

  // ---- commit safety

  lemma EndorsersOfConcat(c: Config, n: nat, xs: seq<nat>, ys: seq<nat>)
    requires c.peers >= 1
    ensures EndorsersOf(c, n, xs + ys) == EndorsersOf(c, n, xs) + EndorsersOf(c, n, ys)
  {
  }

  /** The i-th answer can be moved to the front. */
  lemma MoveToFront(c: Config, n: nat, xs: seq<nat>, i: nat) returns (rest: seq<nat>)
    requires c.peers >= 1 && i < |xs|
    ensures |rest| == |xs| - 1
    ensures multiset(xs) == multiset([xs[i]]) + multiset(rest)
    ensures multiset(EndorsersOf(c, n, xs)) == multiset([EndorserAt(c, n, xs[i])]) + multiset(EndorsersOf(c, n, rest))
  {
    rest := xs[..i] + xs[i + 1..];
    assert xs == xs[..i] + ([xs[i]] + xs[i + 1..]);
    EndorsersOfConcat(c, n, xs[..i], [xs[i]] + xs[i + 1..]);
    EndorsersOfConcat(c, n, [xs[i]], xs[i + 1..]);
    EndorsersOfConcat(c, n, xs[..i], xs[i + 1..]);
    assert EndorsersOf(c, n, [xs[i]]) == [EndorserAt(c, n, xs[i])];
  }

  lemma {:induction false} EndorsersOfPermutation(c: Config, n: nat, xs: seq<nat>, ys: seq<nat>)
    requires c.peers >= 1 && multiset(xs) == multiset(ys)
    ensures multiset(EndorsersOf(c, n, xs)) == multiset(EndorsersOf(c, n, ys))
    decreases |xs|
  {
    if xs == [] {
      assert |multiset(ys)| == 0;
    } else {
      var xs' := MoveToFront(c, n, xs, 0);
      assert xs[0] in multiset(ys);
      var i :| 0 <= i < |ys| && ys[i] == xs[0];
      var ys' := MoveToFront(c, n, ys, i);
      assert multiset(xs') == multiset(xs) - multiset([xs[0]]);
      assert multiset(ys') == multiset(ys) - multiset([xs[0]]);
      EndorsersOfPermutation(c, n, xs', ys');
    }
  }

  function UpTo(n: nat): (s: seq<nat>)
    ensures |s| == n && forall i :: 0 <= i < n ==> s[i] == i
  {
    seq(n, i => i)
  }

  lemma {:induction false} DistinctCount(log: seq<nat>, n: nat, x: nat)
    requires DistinctBelow(log, n)
    ensures multiset(log)[x] == One(x in log)
  {
    if log != [] {
      assert log == [log[0]] + log[1..];
      DistinctCount(log[1..], n, x);
    }
  }

  /** A full log is a permutation of the numbers below n. */
  lemma FullLog(log: seq<nat>, n: nat)
    requires DistinctBelow(log, n) && |log| == n
    ensures multiset(log) == multiset(UpTo(n))
  {
    LogBound(log, n);
    forall x: nat ensures multiset(log)[x] == multiset(UpTo(n))[x] {
      DistinctCount(log, n, x);
      DistinctCount(UpTo(n), n, x);
      assert x in UpTo(n) <==> x < n by {
        if x < n { assert UpTo(n)[x] == x; }
      }
    }
  }

  /** The window of endorsers a transaction asks. */
  function AskedOf(c: Config, n: nat): seq<nat>
    requires c.peers >= 1
  {
    Window(PeerByHash(c.sha3(c.message(n)), c.peers), c.endorsements, c.peers)
  }

  /** The peer a transaction is sent to for ordering. */
  function OrdererAsked(c: Config, n: nat): (peer: nat)
    requires c.peers >= 1
    ensures peer < c.peers
  {
    PeerByHash(c.sha3(c.message(n) + "-order"), c.peers)
  }

  /** A recorded transaction carries one endorsement from each entry of its window, every peer has
      validated it exactly once, and its proof was made for the epoch its handle was signed for. */
  ghost predicate Committed(c: Config, s: State, e: Entry)
    requires Shape(c, s)
  {
    && e.tx < |s.txs|
    && multiset(e.endorsers) == multiset(AskedOf(c, e.tx))
    && (forall p :: 0 <= p < c.peers ==>
          Replied(s.txs[e.tx].validate[p]) && multiset(s.txs[e.tx].commits)[p] == 1)
    && s.txs[e.tx].order.Gone?
    && (c.revoke ==> e.epoch == e.handle)
  }

  lemma FullyEndorsed(c: Config, n: nat, answers: seq<nat>)
    requires c.peers >= 1 && DistinctBelow(answers, c.endorsements) && |answers| == c.endorsements
    ensures multiset(EndorsersOf(c, n, answers)) == multiset(AskedOf(c, n))
  {
    FullLog(answers, c.endorsements);
    EndorsersOfPermutation(c, n, answers, UpTo(c.endorsements));
    assert EndorsersOf(c, n, UpTo(c.endorsements)) == AskedOf(c, n);
  }

  lemma FullyCommitted(c: Config, commits: seq<nat>)
    requires DistinctBelow(commits, c.peers) && |commits| == c.peers
    ensures forall p :: 0 <= p < c.peers ==> multiset(commits)[p] == 1
  {
    LogBound(commits, c.peers);
    forall p | 0 <= p < c.peers ensures multiset(commits)[p] == 1 {
      DistinctCount(commits, c.peers, p);
    }
  }

  lemma EntryCommitted(c: Config, s: State, k: nat)
    requires Inv(c, s) && k < |s.ledger|
    ensures Committed(c, s, s.ledger[k])
  {
    var e := s.ledger[k];
    assert EntryInv(c, s, e);
    assert LedgerTxs(s.ledger)[k] == e.tx;
    var t := s.txs[e.tx];
    DoneIsComplete(c, t, s.grants[c.users + e.tx], s.epoch);
    assert t.answers[..t.taken] == t.answers;
    FullyEndorsed(c, e.tx, t.answers);
    FullyCommitted(c, t.commits);
  }

  /** No peer validates a transaction that was not ordered, and none before it was fully endorsed. */
  lemma ValidationFollowsOrder(c: Config, s: State, n: nat, p: nat)
    requires Inv(c, s) && n < |s.txs| && p < c.peers && !s.txs[n].validate[p].Unsent?
    ensures Ordered(s.txs[n].user) && s.txs[n].taken == c.endorsements
    ensures s.txs[n].order.Gone? || (s.txs[n].order.Working? && p + 1 < s.txs[n].order.at)
  {
    assert TxInv(c, s.txs[n], s.grants[c.users + n], s.epoch);
  }

  // ---- accounts of a finished simulation

  lemma CompleteOwesNothing(c: Config, n: nat, t: Tx, e: Event)
    requires c.peers >= 1 && Complete(c, t) && t.user.Done?
    ensures TxWeight(c, Count(e), n, t) == 0
  {
    var w := Count(e);
    forall i | 0 <= i < c.endorsements ensures EndorseWeight(c, w, n, i, t.endorse[i]) == 0 {
      RepliedOwesNothing(c, n, i, t.endorse[i], e);
    }
    forall p | 0 <= p < c.peers ensures ValidateWeight(c, w, n, p, t.validate[p]) == 0 {
      RepliedOwesNothing(c, n, p, t.validate[p], e);
    }
    SumConst(EndorseWeights(c, w, n, t.endorse), 0);
    SumConst(ValidateWeights(c, w, n, t.validate), 0);
    RepliedOwesNothing(c, n, 0, t.order, e);
  }

  lemma RepliedOwesNothing(c: Config, n: nat, i: nat, pc: JobPc, e: Event)
    requires c.peers >= 1 && Replied(pc)
    ensures EndorseWeight(c, Count(e), n, i, pc) == 0
    ensures ValidateWeight(c, Count(e), n, i, pc) == 0
    ensures OrderWeight(c, Count(e), pc) == 0
    ensures GrantWeight(c, Count(e), pc) == 0
  {
  }

  lemma FinishedOwesNothing(c: Config, s: State, e: Event)
    requires Inv(c, s) && s.main.Finished?
    ensures Total(c, Count(e), s) == 0
  {
    var w := Count(e);
    JoinedIsDrained(c, s);
    forall n | 0 <= n < |s.txs| ensures TxWeight(c, w, n, s.txs[n]) == 0 {
      assert Complete(c, s.txs[n]);
      CompleteOwesNothing(c, n, s.txs[n], e);
    }
    SumConst(TxWeights(c, w, s.txs), 0);
    forall r | 0 <= r < |s.grants| ensures GrantWeight(c, w, s.grants[r].pc) == 0 {
      if c.revoke {
        RepliedOwesNothing(c, 0, 0, s.grants[r].pc, e);
      }
    }
    SumConst(GrantWeights(c, w, s.grants), 0);
  }
}
