/** Choosing peers by hash: the endorser window and the orderer of a transaction. */
module Endorsers {
  import opened Arithmetic

  newtype Byte = b: int | 0 <= b < 256

  /** The unsigned big-endian integer of a byte string (big.Int SetBytes). */
  function BigEndian(bytes: seq<Byte>): nat {
    if bytes == [] then 0
    else 256 * BigEndian(bytes[..|bytes| - 1]) + bytes[|bytes| - 1] as nat
  }

  function Power(n: nat): nat {
    if n == 0 then 1 else 256 * Power(n - 1)
  }

  lemma {:induction false} PowerPositive(n: nat)
    ensures Power(n) > 0
  {
    if n > 0 {
      PowerPositive(n - 1);
    }
  }

  /** The bytes are the digits of the number to the base 256, the first one the most significant. */
  lemma {:induction false} DigitsAreBytes(bytes: seq<Byte>, i: nat)
    requires i < |bytes|
    ensures BigEndian(bytes) < Power(|bytes|)
    ensures Power(|bytes| - 1 - i) > 0 && BigEndian(bytes) / Power(|bytes| - 1 - i) % 256 == bytes[i] as nat
  {
    var last := |bytes| - 1;
    var front, b := BigEndian(bytes[..last]), bytes[last] as nat;
    PowerPositive(last - i);
    NumberBelow(bytes);
    if i == last {
      Euclid(256 * front + b, front, b, 256);
    } else {
      DigitsAreBytes(bytes[..last], i);
      PowerPositive(last - 1 - i);
      DropDigit(front, b, Power(last - 1 - i));
    }
  }

  lemma {:induction false} NumberBelow(bytes: seq<Byte>)
    ensures BigEndian(bytes) < Power(|bytes|)
  {
    if bytes != [] {
      NumberBelow(bytes[..|bytes| - 1]);
    }
  }

  /** Dividing by one more factor of 256 drops the last digit first. */
  lemma DropDigit(a: nat, b: nat, m: nat)
    requires b < 256 && m > 0
    ensures (256 * a + b) / (256 * m) == a / m
  {
    var q, r := a / m, a % m;
    assert a == q * m + r;
    assert 256 * a + b == q * (256 * m) + (256 * r + b);
    Euclid(256 * a + b, q, 256 * r + b, 256 * m);
  }

  function PeerByHash(hash: seq<Byte>, peers: nat): (peer: nat)
    requires peers > 0
    ensures peer < peers
  {
    BigEndian(hash) % peers
  }

  /** Reducing after every byte picks the same peer as reducing the whole number at the end. */
  method PeerByBytes(hash: seq<Byte>, peers: nat) returns (peer: nat)
    requires peers > 0
    ensures peer == PeerByHash(hash, peers)
  {
    peer := 0;
    for i := 0 to |hash|
      invariant peer == PeerByHash(hash[..i], peers)
    {
      ModStep(BigEndian(hash[..i]), hash[i] as nat, peers);
      assert hash[..i + 1][..i] == hash[..i];
      peer := (256 * peer + hash[i] as nat) % peers;
    }
    assert hash[..|hash|] == hash;
  }

  /** The slot-th endorser when the window starts at peer first. */
  function WindowAt(first: nat, slot: nat, peers: nat): (peer: nat)
    requires peers > 0
    ensures peer < peers
  {
    (first + slot) % peers
  }

  function Window(first: nat, size: nat, peers: nat): (window: seq<nat>)
    requires peers > 0
    ensures |window| == size
    ensures forall i :: 0 <= i < size ==> window[i] == WindowAt(first, i, peers)
  {
    seq(size, i requires 0 <= i < size => WindowAt(first, i, peers))
  }

  /** The loop of submitTransaction that fills the endorser array. */
  method FillEndorsers(hash: seq<Byte>, size: nat, peers: nat) returns (endorsers: array<nat>)
    requires peers > 0
    ensures fresh(endorsers)
    ensures endorsers[..] == Window(PeerByHash(hash, peers), size, peers)
  {
    endorsers := new nat[size];
    var endorser := PeerByHash(hash, peers);
    for peer := 0 to size
      invariant forall i :: 0 <= i < peer ==> endorsers[i] == WindowAt(endorser, i, peers)
    {
      endorsers[peer] := (endorser + peer) % peers;
    }
  }

  function Hits(window: seq<nat>, peer: nat): (hits: nat)
    ensures hits == multiset(window)[peer]
  {
    if window == [] then 0
    else
      assert window == window[..|window| - 1] + [window[|window| - 1]];
      Hits(window[..|window| - 1], peer) + if window[|window| - 1] == peer then 1 else 0
  }

  /** Two slots fall on the same peer exactly when they are a multiple of the peer count apart. */
  lemma SameSlot(first: nat, i: nat, j: nat, peers: nat)
    requires peers > 0 && i <= j
    ensures WindowAt(first, i, peers) == WindowAt(first, j, peers) <==> (j - i) % peers == 0
  {
    var a, b := first + i, first + j;
    if a % peers == b % peers {
      Apart(a, b, peers);
    }
    if (j - i) % peers == 0 {
      AddMultiple(a, (j - i) / peers, peers);
      assert b == a + ((j - i) / peers) * peers;
    }
  }

  /** Whole turns: a window of turns * peers slots hits every peer exactly `turns` times, and `rest`
      further slots hit the next `rest` peers once more. */
  lemma {:induction false} WindowHits(first: nat, size: nat, peer: nat, peers: nat)
    requires peer < peers
    ensures var offset := (peer + peers - first % peers) % peers;
            Hits(Window(first, size, peers), peer) == size / peers + if offset < size % peers then 1 else 0
  {
    var offset := (peer + peers - first % peers) % peers;
    var window := Window(first, size, peers);
    if size == 0 {
      Euclid(0, 0, 0, peers);
    } else {
      var last := size - 1;
      assert window[..last] == Window(first, last, peers);
      WindowHits(first, last, peer, peers);
      HitExactly(first, last, peer, peers);
      Successor(last, peers);
    }
  }

  lemma HitExactly(first: nat, slot: nat, peer: nat, peers: nat)
    requires peer < peers
    ensures WindowAt(first, slot, peers) == peer <==> slot % peers == (peer + peers - first % peers) % peers
  {
    var f, r := first % peers, slot % peers;
    assert first + slot == (f + r) + (first / peers + slot / peers) * peers;
    AddMultiple(f + r, first / peers + slot / peers, peers);
    Wrap(f + r, peers);
    Wrap(peer + peers - f, peers);
  }

  /** Every peer is asked floor(E/P) or ceil(E/P) times. */
  lemma WindowIsBalanced(first: nat, size: nat, peer: nat, peers: nat)
    requires peer < peers
    ensures size / peers <= multiset(Window(first, size, peers))[peer] <= (size + peers - 1) / peers
  {
    WindowHits(first, size, peer, peers);
    Ceiling(size, peers);
  }

  lemma DistinctSlots(first: nat, i: nat, j: nat, peers: nat)
    requires i < j < peers
    ensures WindowAt(first, i, peers) != WindowAt(first, j, peers)
  {
    SameSlot(first, i, j, peers);
    Wrap(j - i, peers);
  }

  lemma SlotAgain(first: nat, i: nat, peers: nat)
    requires peers > 0
    ensures WindowAt(first, i, peers) == WindowAt(first, i + peers, peers)
  {
    SameSlot(first, i, i + peers, peers);
    Euclid(peers, 1, 0, peers);
  }

  /** No peer is asked twice exactly when there are at least as many peers as endorsements. */
  lemma WindowDistinctIff(first: nat, size: nat, peers: nat)
    requires peers > 0
    ensures (forall i, j :: 0 <= i < j < size ==> Window(first, size, peers)[i] != Window(first, size, peers)[j])
            <==> size <= peers
  {
    var window := Window(first, size, peers);
    if size <= peers {
      forall i, j | 0 <= i < j < size ensures window[i] != window[j] {
        DistinctSlots(first, i, j, peers);
      }
    } else {
      SlotAgain(first, 0, peers);
      assert window[0] == window[peers];
    }
  }
}
