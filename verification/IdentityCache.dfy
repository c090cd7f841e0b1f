/** The identity cache of a peer: a key is four bytes of the hash of the proof, whereas the verdict is
    about the proof, the pseudonym and the disclosed indices. */
module IdentityCache {
  import opened Endorsers
  import opened Sums

  /** One call of validateIdentity. */
  datatype Check = Check(proof: seq<Byte>, pkNym: int, indices: int)

  type Key = seq<Byte>

  /** The hash and the proof system are not modelled: any functions will do. */
  datatype Crypto = Crypto(sha3: seq<Byte> -> seq<Byte>, verdict: Check -> bool) {
    function KeyOf(x: Check): Key {
      var hash := sha3(x.proof);
      if |hash| <= 4 then hash else hash[..4]
    }
  }

  /** Whether the checks pass one after the other, the peer panicking at the first failure, and the cache
      that is left. */
  datatype Outcome = Panicked | Passed(cache: seq<Key>, verified: nat)

  function CheckOnce(c: Crypto, x: Check, cache: seq<Key>): Outcome {
    if c.KeyOf(x) in cache then Passed(cache, 0)
    else if c.verdict(x) then Passed(cache + [c.KeyOf(x)], 1)
    else Panicked
  }

  function CheckAll(c: Crypto, xs: seq<Check>, cache: seq<Key>): Outcome {
    if xs == [] then Passed(cache, 0)
    else
      match CheckOnce(c, xs[0], cache)
      case Panicked => Panicked
      case Passed(cache', verified) =>
        match CheckAll(c, xs[1..], cache')
        case Panicked => Panicked
        case Passed(last, more) => Passed(last, verified + more)
  }

  /** The peer's cache for one operation, changed in place. */
  class Cache {
    const crypto: Crypto
    var keys: seq<Key>
    var verified: nat

    constructor (crypto: Crypto)
      ensures this.crypto == crypto && keys == [] && verified == 0
    {
      this.crypto := crypto;
      keys := [];
      verified := 0;
    }

    /** Scan the cache; on a miss verify the proof, panic on failure, and append the key. */
    method ValidateIdentity(x: Check) returns (ok: bool)
      modifies this`keys, this`verified
      ensures verified >= old(verified)
      ensures ok <==> CheckOnce(crypto, x, old(keys)).Passed?
      ensures ok ==> CheckOnce(crypto, x, old(keys)) == Passed(keys, verified - old(verified))
      ensures !ok ==> keys == old(keys) && verified == old(verified)
    {
      var key := crypto.KeyOf(x);
      for i := 0 to |keys|
        invariant keys == old(keys) && verified == old(verified)
        invariant key !in keys[..i]
      {
        if keys[i] == key {
          return true;
        }
        assert keys[..i + 1] == keys[..i] + [keys[i]];
      }
      assert keys[..|keys|] == keys;
      if !crypto.verdict(x) {
        return false;
      }
      verified := verified + 1;
      keys := keys + [key];
      return true;
    }
  }

  // ---- refinement of a peer that always verifies

  ghost predicate AllVerify(c: Crypto, xs: seq<Check>) {
    forall i :: 0 <= i < |xs| ==> c.verdict(xs[i])
  }

  /** The verdict depends only on the key. */
  ghost predicate KeyDecides(c: Crypto) {
    forall x, y: Check :: c.KeyOf(x) == c.KeyOf(y) && c.verdict(x) ==> c.verdict(y)
  }

  /** Every key is that of a check that verified. */
  ghost predicate Sound(c: Crypto, cache: seq<Key>) {
    forall i :: 0 <= i < |cache| ==> exists x: Check :: c.KeyOf(x) == cache[i] && c.verdict(x)
  }

  lemma {:induction false} CachedPassesWhatVerifies(c: Crypto, xs: seq<Check>, cache: seq<Key>)
    requires AllVerify(c, xs)
    ensures CheckAll(c, xs, cache).Passed?
  {
    if xs != [] {
      assert c.verdict(xs[0]);
      assert AllVerify(c, xs[1..]);
      CachedPassesWhatVerifies(c, xs[1..], CheckOnce(c, xs[0], cache).cache);
    }
  }

  lemma {:induction false} CachedVerifies(c: Crypto, xs: seq<Check>, cache: seq<Key>)
    requires KeyDecides(c) && Sound(c, cache) && CheckAll(c, xs, cache).Passed?
    ensures AllVerify(c, xs)
  {
    if xs != [] {
      var next := CheckOnce(c, xs[0], cache).cache;
      if c.KeyOf(xs[0]) in cache {
        var i :| 0 <= i < |cache| && cache[i] == c.KeyOf(xs[0]);
      }
      assert c.verdict(xs[0]);
      forall i | 0 <= i < |next| ensures exists x: Check :: c.KeyOf(x) == next[i] && c.verdict(x) {
        if i == |cache| {
          assert next[i] == c.KeyOf(xs[0]);
        }
      }
      CachedVerifies(c, xs[1..], next);
      assert xs == [xs[0]] + xs[1..];
    }
  }

  /** The cached peer accepts exactly what an always-verifying peer accepts, over all sequences of checks,
      if and only if the verdict depends only on the key. */
  lemma CacheRefinesIff(c: Crypto)
    ensures (forall xs: seq<Check> :: CheckAll(c, xs, []).Passed? <==> AllVerify(c, xs)) <==> KeyDecides(c)
  {
    if KeyDecides(c) {
      forall xs: seq<Check> ensures CheckAll(c, xs, []).Passed? <==> AllVerify(c, xs) {
        if AllVerify(c, xs) {
          CachedPassesWhatVerifies(c, xs, []);
        } else if CheckAll(c, xs, []).Passed? {
          CachedVerifies(c, xs, []);
        }
      }
    } else {
      var x, y: Check :| c.KeyOf(x) == c.KeyOf(y) && c.verdict(x) && !c.verdict(y);
      CollisionPasses(c, x, y);
    }
  }

  /** Otherwise a colliding check slips through right after the one it collides with. */
  lemma CollisionPasses(c: Crypto, x: Check, y: Check)
    requires c.KeyOf(x) == c.KeyOf(y) && c.verdict(x) && !c.verdict(y)
    ensures CheckAll(c, [x, y], []).Passed? && !AllVerify(c, [x, y])
  {
    var xs, cache := [x, y], [c.KeyOf(x)];
    assert CheckAll(c, [y], cache) == Passed(cache, 0) by {
      assert [y][1..] == [];
    }
    assert CheckOnce(c, x, []) == Passed([] + cache, 1) && [] + cache == cache;
    assert xs[1..] == [y];
    assert !c.verdict(xs[1]);
  }

  // ---- work done

  function Keys(c: Crypto, xs: seq<Check>): set<Key> {
    set i | 0 <= i < |xs| :: c.KeyOf(xs[i])
  }

  lemma KeysCons(c: Crypto, xs: seq<Check>)
    requires xs != []
    ensures Keys(c, xs) == {c.KeyOf(xs[0])} + Keys(c, xs[1..])
  {
    forall k | k in Keys(c, xs) ensures k in {c.KeyOf(xs[0])} + Keys(c, xs[1..]) {
      var i :| 0 <= i < |xs| && k == c.KeyOf(xs[i]);
      if i > 0 { assert xs[i] == xs[1..][i - 1]; }
    }
    forall k | k in Keys(c, xs[1..]) ensures k in Keys(c, xs) {
      var i :| 0 <= i < |xs[1..]| && k == c.KeyOf(xs[1..][i]);
      assert xs[i + 1] == xs[1..][i];
    }
  }

  lemma RemoveOne(a: set<Key>, held: set<Key>, k: Key)
    requires k !in held
    ensures |({k} + a) - held| == |a - (held + {k})| + 1
  {
    assert ({k} + a) - held == (a - (held + {k})) + {k};
  }

  /** The cache only grows, by the keys that were missing, and holds no key twice. */
  lemma {:induction false} CacheGrows(c: Crypto, xs: seq<Check>, cache: seq<Key>)
    requires NoRepeat(cache) && CheckAll(c, xs, cache).Passed?
    ensures var last := CheckAll(c, xs, cache).cache;
      NoRepeat(last) && cache <= last && Entries(last) == Entries(cache) + Keys(c, xs)
  {
    if xs == [] {
      assert Keys(c, xs) == {};
    } else {
      KeysCons(c, xs);
      var next := CheckOnce(c, xs[0], cache).cache;
      CacheGrows(c, xs[1..], next);
      assert c.KeyOf(xs[0]) in Entries(next);
    }
  }

  /** One full verification for every key that was not cached yet, and one new cache entry each. */
  lemma {:induction false} OneVerificationPerKey(c: Crypto, xs: seq<Check>, cache: seq<Key>)
    requires CheckAll(c, xs, cache).Passed?
    ensures CheckAll(c, xs, cache).verified == |Keys(c, xs) - Entries(cache)|
    ensures |CheckAll(c, xs, cache).cache| == |cache| + CheckAll(c, xs, cache).verified
  {
    if xs == [] {
      assert Keys(c, xs) - Entries(cache) == {};
    } else {
      KeysCons(c, xs);
      var key, rest := c.KeyOf(xs[0]), Keys(c, xs[1..]);
      var next := CheckOnce(c, xs[0], cache).cache;
      OneVerificationPerKey(c, xs[1..], next);
      if key in cache {
        assert ({key} + rest) - Entries(cache) == rest - Entries(cache);
      } else {
        assert Entries(next) == Entries(cache) + {key};
        RemoveOne(rest, Entries(cache), key);
      }
    }
  }

  // ---- concurrent checks: the scan, the verification, and the two halves of the append are separate steps

  /** Where one of the concurrent calls is. Loaded holds the list its append started from. */
  datatype Stage = Scanning | Missed | Verified | Loaded(seen: seq<Key>) | Stored | Hit | Failed

  datatype Concurrent = Concurrent(cache: seq<Key>, stages: seq<Stage>)

  function Step(c: Crypto, xs: seq<Check>, s: Concurrent, t: nat): Concurrent
    requires |xs| == |s.stages| && t < |xs|
  {
    var key := c.KeyOf(xs[t]);
    match s.stages[t]
    case Scanning => s.(stages := s.stages[t := if key in s.cache then Hit else Missed])
    case Missed => s.(stages := s.stages[t := if c.verdict(xs[t]) then Verified else Failed])
    case Verified => s.(stages := s.stages[t := Loaded(s.cache)])
    case Loaded(seen) => Concurrent(seen + [key], s.stages[t := Stored])
    case _ => s
  }

  function Schedule(c: Crypto, xs: seq<Check>, ts: seq<nat>): (s: Concurrent)
    requires forall i :: 0 <= i < |ts| ==> ts[i] < |xs|
    ensures |s.stages| == |xs|
  {
    if ts == [] then Concurrent([], seq(|xs|, i => Scanning))
    else Step(c, xs, Schedule(c, xs, ts[..|ts| - 1]), ts[|ts| - 1])
  }

  predicate PastVerification(stage: Stage) {
    stage.Verified? || stage.Loaded? || stage.Stored?
  }

  /** Some check of the run has this key and went through the full verification. */
  ghost predicate Vouched(c: Crypto, xs: seq<Check>, s: Concurrent, key: Key)
    requires |xs| == |s.stages|
  {
    exists t :: 0 <= t < |xs| && c.KeyOf(xs[t]) == key && c.verdict(xs[t]) && PastVerification(s.stages[t])
  }

  ghost predicate AllVouched(c: Crypto, xs: seq<Check>, s: Concurrent, keys: seq<Key>)
    requires |xs| == |s.stages|
  {
    forall key :: key in keys ==> Vouched(c, xs, s, key)
  }

  /** What holds of one check at its stage. */
  ghost predicate StageHolds(c: Crypto, xs: seq<Check>, s: Concurrent, t: nat)
    requires |xs| == |s.stages| && t < |xs|
  {
    match s.stages[t]
    case Verified => c.verdict(xs[t])
    case Loaded(seen) => c.verdict(xs[t]) && AllVouched(c, xs, s, seen)
    case Stored => c.verdict(xs[t])
    case Hit => Vouched(c, xs, s, c.KeyOf(xs[t]))
    case Failed => !c.verdict(xs[t])
    case _ => true
  }

  ghost predicate CacheInvariant(c: Crypto, xs: seq<Check>, s: Concurrent)
    requires |xs| == |s.stages|
  {
    && AllVouched(c, xs, s, s.cache)
    && forall t :: 0 <= t < |xs| ==> StageHolds(c, xs, s, t)
  }

  /** A step never takes a voucher away. */
  lemma VouchedStays(c: Crypto, xs: seq<Check>, s: Concurrent, t: nat, key: Key)
    requires |xs| == |s.stages| && t < |xs| && Vouched(c, xs, s, key)
    ensures Vouched(c, xs, Step(c, xs, s, t), key)
  {
    var s' := Step(c, xs, s, t);
    var v :| 0 <= v < |xs| && c.KeyOf(xs[v]) == key && c.verdict(xs[v]) && PastVerification(s.stages[v]);
    assert PastVerification(s'.stages[v]);
  }

  lemma StepKeepsCache(c: Crypto, xs: seq<Check>, s: Concurrent, t: nat)
    requires |xs| == |s.stages| && t < |xs| && CacheInvariant(c, xs, s)
    ensures CacheInvariant(c, xs, Step(c, xs, s, t))
  {
    var s' := Step(c, xs, s, t);
    assert StageHolds(c, xs, s, t);
    forall key | Vouched(c, xs, s, key) ensures Vouched(c, xs, s', key) {
      VouchedStays(c, xs, s, t, key);
    }
    forall key | key in s'.cache ensures Vouched(c, xs, s', key) {
      if s.stages[t].Loaded? && key == c.KeyOf(xs[t]) {
        assert PastVerification(s'.stages[t]);
      }
    }
    forall u | 0 <= u < |xs| ensures StageHolds(c, xs, s', u) {
      assert StageHolds(c, xs, s, u);
    }
  }

  lemma {:induction false} ScheduleKeepsCache(c: Crypto, xs: seq<Check>, ts: seq<nat>)
    requires forall i :: 0 <= i < |ts| ==> ts[i] < |xs|
    ensures CacheInvariant(c, xs, Schedule(c, xs, ts))
  {
    if ts != [] {
      ScheduleKeepsCache(c, xs, ts[..|ts| - 1]);
      StepKeepsCache(c, xs, Schedule(c, xs, ts[..|ts| - 1]), ts[|ts| - 1]);
    }
  }

  /** In every interleaving, lost appends included: a cached key comes from a check of this run that
      verified; a check that is accepted verified itself or has the key of one that did; and a check fails
      only if its own verification does. */
  lemma ConcurrentSoundness(c: Crypto, xs: seq<Check>, ts: seq<nat>, t: nat)
    requires t < |xs| && forall i :: 0 <= i < |ts| ==> ts[i] < |xs|
    ensures var s := Schedule(c, xs, ts);
      && (forall key :: key in s.cache ==> Vouched(c, xs, s, key))
      && (s.stages[t].Stored? ==> c.verdict(xs[t]))
      && (s.stages[t].Hit? ==> Vouched(c, xs, s, c.KeyOf(xs[t])))
      && (s.stages[t].Failed? ==> !c.verdict(xs[t]))
      && (KeyDecides(c) && s.stages[t].Hit? ==> c.verdict(xs[t]))
  {
    var s := Schedule(c, xs, ts);
    ScheduleKeepsCache(c, xs, ts);
    assert StageHolds(c, xs, s, t);
    if KeyDecides(c) && s.stages[t].Hit? {
      var v :| 0 <= v < |xs| && c.KeyOf(xs[v]) == c.KeyOf(xs[t]) && c.verdict(xs[v]);
    }
  }

  /** Both checks miss and verify. */
  lemma BothVerified(c: Crypto, x: Check, y: Check)
    requires c.verdict(x) && c.verdict(y)
    ensures Schedule(c, [x, y], [0, 1, 0, 1]) == Concurrent([], [Verified, Verified])
  {
    var xs := [x, y];
    assert Schedule(c, xs, [0]) == Concurrent([], [Missed, Scanning]) by { assert [0][..0] == []; }
    assert Schedule(c, xs, [0, 1]) == Concurrent([], [Missed, Missed]) by { assert [0, 1][..1] == [0]; }
    assert Schedule(c, xs, [0, 1, 0]) == Concurrent([], [Verified, Missed]) by { assert [0, 1, 0][..2] == [0, 1]; }
    assert [0, 1, 0, 1][..3] == [0, 1, 0];
  }

  /** Both then load the empty list. */
  lemma BothLoaded(c: Crypto, x: Check, y: Check)
    requires c.verdict(x) && c.verdict(y)
    ensures Schedule(c, [x, y], [0, 1, 0, 1, 0, 1]) == Concurrent([], [Loaded([]), Loaded([])])
  {
    var xs := [x, y];
    BothVerified(c, x, y);
    assert Schedule(c, xs, [0, 1, 0, 1, 0]) == Concurrent([], [Loaded([]), Verified]) by {
      assert [0, 1, 0, 1, 0][..4] == [0, 1, 0, 1];
    }
    assert [0, 1, 0, 1, 0, 1][..5] == [0, 1, 0, 1, 0];
  }

  /** An append can be lost: two checks that both verified leave one key. */
  lemma AppendCanBeLost(c: Crypto, x: Check, y: Check)
    requires c.verdict(x) && c.verdict(y)
    ensures Schedule(c, [x, y], [0, 1, 0, 1, 0, 1, 0, 1]).cache == [c.KeyOf(y)]
  {
    var xs := [x, y];
    BothLoaded(c, x, y);
    assert Schedule(c, xs, [0, 1, 0, 1, 0, 1, 0]).stages[1] == Loaded([]) by {
      assert [0, 1, 0, 1, 0, 1, 0][..6] == [0, 1, 0, 1, 0, 1];
    }
    assert [0, 1, 0, 1, 0, 1, 0, 1][..7] == [0, 1, 0, 1, 0, 1, 0];
  }
}
