/** When a check hits: the first four bytes of the hash of its proof decide, and nothing else. */
module CacheKeys {
  import opened IdentityCache

  /** The hash of the proof has the bytes a key is made of; SHA-3 always has. */
  ghost predicate Hashed(c: Crypto, x: Check) {
    |c.sha3(x.proof)| >= 4
  }

  ghost predicate AllHashed(c: Crypto, xs: seq<Check>) {
    forall i :: 0 <= i < |xs| ==> Hashed(c, xs[i])
  }

  /** Two checks that both verify cost one verification if their proofs hash to the same first four bytes, and two
      otherwise, whatever their pseudonyms and indices. */
  lemma TwoChecks(c: Crypto, x: Check, y: Check)
    requires Hashed(c, x) && Hashed(c, y) && c.verdict(x) && c.verdict(y)
    ensures var first, second := c.sha3(x.proof)[..4], c.sha3(y.proof)[..4];
      CheckAll(c, [x, y], []) == if first == second then Passed([first], 1) else Passed([first, second], 2)
  {
    var first, second := c.sha3(x.proof)[..4], c.sha3(y.proof)[..4];
    FourBytes(c, x);
    FourBytes(c, y);
    assert [x, y][1..] == [y] && [y][1..] == [];
    assert CheckOnce(c, x, []) == Passed([first], 1) by {
      assert [] + [first] == [first];
    }
    assert CheckAll(c, [y], [first]) == CheckOnce(c, y, [first]);
    assert [first] + [second] == [first, second];
  }

  lemma FourBytes(c: Crypto, x: Check)
    requires Hashed(c, x)
    ensures c.KeyOf(x) == c.sha3(x.proof)[..4]
  {
    assert |c.sha3(x.proof)| == 4 ==> c.sha3(x.proof)[..4] == c.sha3(x.proof);
  }

  lemma {:induction false} CheckMore(c: Crypto, xs: seq<Check>, x: Check, cache: seq<Key>)
    requires CheckAll(c, xs, cache).Passed?
    ensures var before := CheckAll(c, xs, cache);
      CheckAll(c, xs + [x], cache) ==
        match CheckOnce(c, x, before.cache)
        case Panicked => Panicked
        case Passed(last, more) => Passed(last, before.verified + more)
  {
    if xs == [] {
      assert [] + [x] == [x] && [x][1..] == [];
    } else {
      assert (xs + [x])[1..] == xs[1..] + [x];
      CheckMore(c, xs[1..], x, CheckOnce(c, xs[0], cache).cache);
    }
  }

  lemma {:induction false} PrefixPasses(c: Crypto, xs: seq<Check>, i: nat, cache: seq<Key>)
    requires i <= |xs| && CheckAll(c, xs, cache).Passed?
    ensures CheckAll(c, xs[..i], cache).Passed?
  {
    if i > 0 {
      assert xs[..i][1..] == xs[1..][..i - 1];
      PrefixPasses(c, xs[1..], i - 1, CheckOnce(c, xs[0], cache).cache);
    }
  }

  /** Some check among these verifies and agrees with x in the first four bytes of the hashes. */
  ghost predicate Seen(c: Crypto, xs: seq<Check>, x: Check)
    requires AllHashed(c, xs) && Hashed(c, x)
  {
    exists j :: 0 <= j < |xs| && c.verdict(xs[j]) && c.sha3(xs[j].proof)[..4] == c.sha3(x.proof)[..4]
  }

  lemma SeenMore(c: Crypto, xs: seq<Check>, y: Check, x: Check)
    requires AllHashed(c, xs) && Hashed(c, x) && Hashed(c, y) && AllHashed(c, xs + [y])
    ensures Seen(c, xs + [y], x) <==>
              Seen(c, xs, x) || (c.verdict(y) && c.sha3(y.proof)[..4] == c.sha3(x.proof)[..4])
  {
    var more := xs + [y];
    assert more[|xs|] == y;
    if Seen(c, xs, x) {
      var j :| 0 <= j < |xs| && c.verdict(xs[j]) && c.sha3(xs[j].proof)[..4] == c.sha3(x.proof)[..4];
      assert more[j] == xs[j];
    }
    if j :| 0 <= j < |more| && c.verdict(more[j]) && c.sha3(more[j].proof)[..4] == c.sha3(x.proof)[..4] {
      assert j < |xs| ==> more[j] == xs[j];
    }
  }

  /** From an empty cache, a key is held if and only if an earlier check that verifies has it. */
  lemma {:induction false} HeldIff(c: Crypto, xs: seq<Check>, x: Check)
    requires AllHashed(c, xs) && Hashed(c, x) && CheckAll(c, xs, []).Passed?
    ensures c.sha3(x.proof)[..4] in CheckAll(c, xs, []).cache <==> Seen(c, xs, x)
    decreases |xs|
  {
    if xs != [] {
      var front, y := xs[..|xs| - 1], xs[|xs| - 1];
      assert xs == front + [y];
      PrefixPasses(c, xs, |xs| - 1, []);
      assert AllHashed(c, front) && Hashed(c, y);
      CheckMore(c, front, y, []);
      HeldIff(c, front, x);
      HeldIff(c, front, y);
      FourBytes(c, y);
      SeenMore(c, front, y, x);
    }
  }

  /** A check hits if and only if an earlier one that verifies agrees with it in the first four bytes of the hash of
      the proof; otherwise it is verified, and its four bytes are appended, or it ends the peer. */
  lemma HitIff(c: Crypto, xs: seq<Check>, i: nat)
    requires i < |xs| && AllHashed(c, xs) && CheckAll(c, xs[..i], []).Passed?
    ensures AllHashed(c, xs[..i])
    ensures var cache := CheckAll(c, xs[..i], []).cache;
      CheckOnce(c, xs[i], cache) ==
        if Seen(c, xs[..i], xs[i]) then Passed(cache, 0)
        else if c.verdict(xs[i]) then Passed(cache + [c.sha3(xs[i].proof)[..4]], 1)
        else Panicked
  {
    assert Hashed(c, xs[i]) && AllHashed(c, xs[..i]);
    HeldIff(c, xs[..i], xs[i]);
    FourBytes(c, xs[i]);
  }

  // ---- checks that are not interrupted

  /** Each check makes its four steps before the next one starts. */
  function InTurn(n: nat): (ts: seq<nat>)
    ensures forall i :: 0 <= i < |ts| ==> ts[i] < n
  {
    if n == 0 then [] else InTurn(n - 1) + [n - 1] + [n - 1] + [n - 1] + [n - 1]
  }

  function Four(c: Crypto, xs: seq<Check>, s: Concurrent, t: nat): Concurrent
    requires |xs| == |s.stages| && t < |xs|
  {
    Step(c, xs, Step(c, xs, Step(c, xs, Step(c, xs, s, t), t), t), t)
  }

  /** Four steps on end are one check of the sequential peer. */
  lemma AloneIsOnce(c: Crypto, xs: seq<Check>, s: Concurrent, t: nat)
    requires |xs| == |s.stages| && t < |xs| && s.stages[t].Scanning?
    ensures Four(c, xs, s, t) ==
              match CheckOnce(c, xs[t], s.cache)
              case Panicked => s.(stages := s.stages[t := Failed])
              case Passed(cache, verified) => Concurrent(cache, s.stages[t := if verified == 0 then Hit else Stored])
  {
    if c.KeyOf(xs[t]) in s.cache {
      assert Step(c, xs, s, t).stages[t] == Hit;
    }
  }

  lemma ScheduleMore(c: Crypto, xs: seq<Check>, ts: seq<nat>, t: nat)
    requires t < |xs| && forall i :: 0 <= i < |ts| ==> ts[i] < |xs|
    ensures Schedule(c, xs, ts + [t]) == Step(c, xs, Schedule(c, xs, ts), t)
  {
    assert (ts + [t])[..|ts + [t]| - 1] == ts;
  }

  lemma FourMore(c: Crypto, xs: seq<Check>, n: nat)
    requires n < |xs|
    ensures Schedule(c, xs, InTurn(n + 1)) == Four(c, xs, Schedule(c, xs, InTurn(n)), n)
  {
    var ts := InTurn(n);
    ScheduleMore(c, xs, ts, n);
    ScheduleMore(c, xs, ts + [n], n);
    ScheduleMore(c, xs, ts + [n] + [n], n);
    ScheduleMore(c, xs, ts + [n] + [n] + [n], n);
  }

  /** The cache is this one, and the checks from t on have not started. */
  ghost predicate Waits(xs: seq<Check>, s: Concurrent, t: nat, cache: seq<Key>) {
    |xs| == |s.stages| && s.cache == cache && forall u :: t <= u < |xs| ==> s.stages[u].Scanning?
  }

  lemma TakesTurn(c: Crypto, xs: seq<Check>, s: Concurrent, t: nat)
    requires t < |xs| && Waits(xs, s, t, s.cache) && CheckOnce(c, xs[t], s.cache).Passed?
    ensures Waits(xs, Four(c, xs, s, t), t + 1, CheckOnce(c, xs[t], s.cache).cache)
  {
    AloneIsOnce(c, xs, s, t);
  }

  lemma PassesOn(c: Crypto, xs: seq<Check>, n: nat)
    requires 0 < n <= |xs| && CheckAll(c, xs[..n], []).Passed?
    ensures CheckAll(c, xs[..n - 1], []).Passed?
    ensures var once := CheckOnce(c, xs[n - 1], CheckAll(c, xs[..n - 1], []).cache);
      once.Passed? && once.cache == CheckAll(c, xs[..n], []).cache
  {
    assert xs[..n][..n - 1] == xs[..n - 1] && xs[..n] == xs[..n - 1] + [xs[n - 1]];
    PrefixPasses(c, xs[..n], n - 1, []);
    CheckMore(c, xs[..n - 1], xs[n - 1], []);
  }

  /** Concurrent checks that happen to take turns do exactly what the sequential peer does. */
  lemma {:induction false} InTurnIsCheckAll(c: Crypto, xs: seq<Check>, n: nat)
    requires n <= |xs| && CheckAll(c, xs[..n], []).Passed?
    ensures Waits(xs, Schedule(c, xs, InTurn(n)), n, CheckAll(c, xs[..n], []).cache)
  {
    if n > 0 {
      PassesOn(c, xs, n);
      InTurnIsCheckAll(c, xs, n - 1);
      FourMore(c, xs, n - 1);
      TakesTurn(c, xs, Schedule(c, xs, InTurn(n - 1)), n - 1);
    }
  }
}
