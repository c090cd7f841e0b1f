/** When a simulation makes no verification twice: the caches of the endorsers, and which of their goroutines can be
    inside a check together. */
module Crowds {
  import Arithmetic
  import opened Sums
  import opened Protocol
  import opened Accounts
  import opened Invariant
  import opened Guarantees
  import opened Runs
  import opened Verifications
  import opened Caching

  /** Two endorsements of one peer that can be under way together: of one transaction, or of different users. */
  ghost predicate Together(c: Config, i: Job, j: Job)
    requires c.peers >= 1
  {
    && i.EndorseJob? && j.EndorseJob? && i != j
    && i.tx < c.users * c.transactions && j.tx < c.users * c.transactions
    && i.slot < c.endorsements && j.slot < c.endorsements
    && CacheOf(c, i) == CacheOf(c, j)
    && c.transactions > 0 && (i.tx == j.tx || UserOf(c, i.tx) != UserOf(c, j.tx))
  }

  ghost predicate Crowded(c: Config)
    requires c.peers >= 1
  {
    exists i, j :: Together(c, i, j)
  }

  // ---- who holds permits together

  /** The state without one endorse goroutine. */
  function Without(s: State, n: nat, slot: nat): State
    requires n < |s.txs| && slot < |s.txs[n].endorse|
  {
    SetTx(s, n, s.txs[n].(endorse := s.txs[n].endorse[slot := Gone]))
  }

  lemma OneLess(c: Config, s: State, n: nat, slot: nat)
    requires Shape(c, s) && n < |s.txs| && slot < c.endorsements && Holds(s.txs[n].endorse[slot])
    ensures Shape(c, Without(s, n, slot))
    ensures var w := EndorsePermit(EndorserAt(c, n, slot)); Total(c, w, Without(s, n, slot)) == Total(c, w, s) - 1
  {
    var w, t := EndorsePermit(EndorserAt(c, n, slot)), s.txs[n];
    TxSet(c, w, s.txs, n, t.(endorse := t.endorse[slot := Gone]));
    EndorseSet(c, w, n, t.endorse, slot, Gone);
  }

  lemma NeverNegative(c: Config, s: State, p: nat)
    requires Shape(c, s)
    ensures Total(c, EndorsePermit(p), s) >= 0
  {
    var w := EndorsePermit(p);
    forall n | 0 <= n < |s.txs| ensures TxWeights(c, w, s.txs)[n] >= 0 {
      SumNonNegative(EndorseWeights(c, w, n, s.txs[n].endorse));
      SumNonNegative(ValidateWeights(c, w, n, s.txs[n].validate));
    }
    SumNonNegative(TxWeights(c, w, s.txs));
    SumNonNegative(GrantWeights(c, w, s.grants));
  }

  /** Two goroutines hold two permits. */
  lemma TwoHolders(c: Config, s: State, i: Job, j: Job)
    requires Shape(c, s) && i.EndorseJob? && j.EndorseJob? && i != j && IsJob(c, s, i) && IsJob(c, s, j)
    requires Holds(PcOf(c, s, i)) && Holds(PcOf(c, s, j)) && EndorserAt(c, i.tx, i.slot) == EndorserAt(c, j.tx, j.slot)
    ensures Total(c, EndorsePermit(EndorserAt(c, i.tx, i.slot)), s) >= 2
  {
    OneLess(c, s, i.tx, i.slot);
    var s' := Without(s, i.tx, i.slot);
    assert s'.txs[j.tx].endorse[j.slot] == s.txs[j.tx].endorse[j.slot];
    OneLess(c, s', j.tx, j.slot);
    NeverNegative(c, Without(s', j.tx, j.slot), EndorserAt(c, i.tx, i.slot));
  }

  // ---- transactions of one user come one after the other

  lemma {:induction false} EarlierIsDone(c: Config, s: State, n: nat, m: nat)
    requires Inv(c, s) && n < m < |s.txs| && UserOf(c, n) == UserOf(c, m) && !s.txs[m].user.Waiting?
    ensures s.txs[n].user.Done?
  {
    assert Started(c, s, m);
    Within(n, m, c.transactions);
    if n < m - 1 {
      EarlierIsDone(c, s, n, m - 1);
    }
  }

  /** Between two numbers with the same quotient there is no multiple, and the quotient stays. */
  lemma Within(n: nat, m: nat, t: nat)
    requires t > 0 && n < m && n / t == m / t
    ensures m % t != 0 && (m - 1) / t == m / t
  {
    var q := m / t;
    assert m == q * t + m % t && n == q * t + n % t;
    Arithmetic.Euclid(m - 1, q, m % t - 1, t);
  }


  lemma WorkIsStarted(c: Config, t: Tx, g: Grant, epoch: nat, slot: nat)
    requires TxInv(c, t, g, epoch) && c.peers >= 1 && slot < c.endorsements && t.endorse[slot].Working?
    ensures !t.user.Waiting? && !t.user.Done?
  {
    if t.user.Done? {
      DoneIsComplete(c, t, g, epoch);
    }
  }

  lemma AtWorkTogether(c: Config, s: State, i: Job, j: Job)
    requires Inv(c, s) && i.EndorseJob? && j.EndorseJob? && i != j && IsJob(c, s, i) && IsJob(c, s, j)
    requires PcOf(c, s, i).Working? && PcOf(c, s, j).Working? && CacheOf(c, i) == CacheOf(c, j)
    ensures Together(c, i, j)
  {
    WorkIsStarted(c, s.txs[i.tx], s.grants[c.users + i.tx], s.epoch, i.slot);
    WorkIsStarted(c, s.txs[j.tx], s.grants[c.users + j.tx], s.epoch, j.slot);
    if i.tx < j.tx && UserOf(c, i.tx) == UserOf(c, j.tx) {
      EarlierIsDone(c, s, i.tx, j.tx);
    } else if j.tx < i.tx && UserOf(c, i.tx) == UserOf(c, j.tx) {
      EarlierIsDone(c, s, j.tx, i.tx);
    }
  }

  // ---- alone in the cache

  lemma OnePermit(c: Config, run: Run, i: Job, j: Job)
    requires Valid(c) && Feasible(c, run) && After(c, run).crash == NoCrash && c.concurrentEndorsements == 1
    requires Shape(c, After(c, run)) && i.EndorseJob? && j.EndorseJob?
    requires IsJob(c, After(c, run), i) && IsJob(c, After(c, run), j) && CacheOf(c, i) == CacheOf(c, j)
    requires Holds(PcOf(c, After(c, run), i)) && Holds(PcOf(c, After(c, run), j))
    ensures i == j
  {
    if i != j {
      RunPermits(c, run, EndorserAt(c, i.tx, i.slot));
      TwoHolders(c, After(c, run), i, j);
    }
  }

  /** Endorsers that can have no company inside a check. */
  ghost predicate Alone(c: Config)
    requires c.peers >= 1
  {
    c.concurrentEndorsements == 1 || !Crowded(c)
  }

  lemma AloneInside(c: Config, moves: seq<Move>, i: Job, j: Job)
    requires Valid(c) && Alone(c) && Possible(c, moves) && Reached(c, moves).state.crash == NoCrash
    requires Inside(Reached(c, moves), i) && Inside(Reached(c, moves), j)
    requires i.EndorseJob? && j.EndorseJob? && CacheOf(c, i) == CacheOf(c, j)
    ensures i == j
  {
    InsideIsParked(c, moves);
    if i != j {
      if c.concurrentEndorsements == 1 {
        TraceIsFeasible(c, moves);
        OnePermit(c, Trace(c, moves), i, j);
      } else {
        ReachedInv(c, moves);
        AtWorkTogether(c, Reached(c, moves).state, i, j);
      }
    }
  }

  lemma NoCrashBefore(c: Config, moves: seq<Move>)
    requires Possible(c, moves) && moves != []
    ensures Possible(c, Before(moves)) && Reached(c, Before(moves)).state.crash == NoCrash
  {
  }

  lemma {:induction false} AloneIsSolo(c: Config, moves: seq<Move>)
    requires Valid(c) && Alone(c) && Possible(c, moves) && Reached(c, moves).state.crash == NoCrash
    ensures AlwaysSolo(c, moves)
  {
    var x := Reached(c, moves);
    forall i, j | Inside(x, i) && Inside(x, j) && i.EndorseJob? && j.EndorseJob? && CacheOf(c, i) == CacheOf(c, j)
      ensures i == j
    {
      AloneInside(c, moves, i, j);
    }
    if moves != [] {
      NoCrashBefore(c, moves);
      AloneIsSolo(c, Before(moves));
    }
  }

  /** With one permit per peer, or without endorsements that can be under way together at one peer, every finished
      simulation makes exactly N(1 + P + min(E, P)) verifications. */
  lemma AloneIsExact(c: Config, moves: seq<Move>)
    requires Valid(c) && Alone(c) && Finishes(c, moves)
    ensures VerificationsOf(c, moves) == Fewest(c)
  {
    AloneIsSolo(c, moves);
    SoloIsExact(c, moves);
  }
}
