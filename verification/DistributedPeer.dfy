/** A distributed peer: the checks of a validation, in order, and the audit of the ledger. */
module DistributedPeer {
  import opened IdentityCache
  import H = DistributedHandle

  datatype Endorsement = Endorsement(id: nat, signature: int)

  /** A non-revocation proof: forged, or made with a handle. */
  datatype RevocationProof = Forged | MadeWith(handle: H.Handle)

  /** What a validator looks at; `message` is what the proposal's signatures are over, `epoch` what the
      transaction claims. */
  datatype Tx = Tx(
    signature: int,
    message: int,
    author: Check,
    endorsements: seq<Endorsement>,
    auditProof: int,
    auditEnc: int,
    authorPk: int,
    revocationProof: RevocationProof,
    epoch: int)

  /** The other signature and proof systems are not modelled: any functions will do. */
  datatype Verifier = Verifier(
    crypto: Crypto,
    nym: Tx -> bool,
    schnorr: (Endorsement, int) -> bool,
    auditProof: Tx -> bool,
    decrypt: int -> int)

  datatype Settings = Settings(endorsements: nat, audit: bool, revoke: bool)

  datatype Verdict =
    | Accepted
    | BadSignature
    | TooFewEndorsements
    | BadEndorsement(index: nat)
    | BadIdentity
    | BadAuditProof
    | BadHandle

  /** A proof is verified against the claimed epoch, and verifies exactly if its handle was signed for it. */
  predicate RevocationVerifies(tx: Tx) {
    tx.revocationProof == MadeWith(H.Signed(tx.epoch))
  }

  ghost predicate Endorsed(v: Verifier, tx: Tx, upTo: nat)
    requires upTo <= |tx.endorsements|
  {
    forall i :: 0 <= i < upTo ==> v.schnorr(tx.endorsements[i], tx.message)
  }

  /** The checks before the identity is looked at. */
  ghost predicate Signed(v: Verifier, s: Settings, tx: Tx) {
    v.nym(tx) && |tx.endorsements| >= s.endorsements && Endorsed(v, tx, |tx.endorsements|)
  }

  /** All checks but the last. */
  ghost predicate OtherwiseAcceptable(v: Verifier, s: Settings, tx: Tx, keys: seq<Key>) {
    && Signed(v, s, tx)
    && CheckOnce(v.crypto, tx.author, keys).Passed?
    && (s.audit ==> v.auditProof(tx))
  }

  /** What makes a transaction acceptable to a peer whose cache holds these keys. */
  ghost predicate Acceptable(v: Verifier, s: Settings, tx: Tx, keys: seq<Key>) {
    OtherwiseAcceptable(v, s, tx, keys) && (s.revoke ==> RevocationVerifies(tx))
  }

  ghost predicate AuditPasses(v: Verifier, tx: Tx) {
    v.decrypt(tx.auditEnc) == tx.authorPk
  }

  class RPCPeer {
    const verifier: Verifier
    const settings: Settings
    const cache: Cache
    var transactions: seq<Tx>

    ghost predicate Valid()
      reads this
    {
      cache.crypto == verifier.crypto
    }

    constructor (verifier: Verifier, settings: Settings)
      ensures Valid() && fresh(cache) && this.verifier == verifier && this.settings == settings
      ensures transactions == [] && cache.keys == []
    {
      this.verifier := verifier;
      this.settings := settings;
      cache := new Cache(verifier.crypto);
      transactions := [];
    }

    /** The ledger gains the transaction if and only if every check passes; otherwise it is left alone and
        the verdict names the first check that fails. */
    method Validate(tx: Tx) returns (verdict: Verdict)
      requires Valid()
      modifies this`transactions, cache`keys, cache`verified
      ensures verdict.Accepted? <==> Acceptable(verifier, settings, tx, old(cache.keys))
      ensures settings.revoke && tx.revocationProof.Forged? ==> !verdict.Accepted?
      ensures transactions == if verdict.Accepted? then old(transactions) + [tx] else old(transactions)
      ensures verdict.BadSignature? <==> !verifier.nym(tx)
      ensures verdict.TooFewEndorsements? <==> verifier.nym(tx) && |tx.endorsements| < settings.endorsements
      ensures verdict.BadEndorsement? ==>
                && verdict.index < |tx.endorsements|
                && Endorsed(verifier, tx, verdict.index)
                && !verifier.schnorr(tx.endorsements[verdict.index], tx.message)
      ensures verdict.BadIdentity? <==>
                && Signed(verifier, settings, tx)
                && CheckOnce(verifier.crypto, tx.author, old(cache.keys)).Panicked?
      ensures verdict.BadAuditProof? <==>
                && Signed(verifier, settings, tx)
                && CheckOnce(verifier.crypto, tx.author, old(cache.keys)).Passed?
                && settings.audit && !verifier.auditProof(tx)
      ensures verdict.BadHandle? <==>
                && OtherwiseAcceptable(verifier, settings, tx, old(cache.keys))
                && settings.revoke && tx.revocationProof != MadeWith(H.Signed(tx.epoch))
      ensures cache.verified >= old(cache.verified)
      ensures if verdict.Accepted? || verdict.BadAuditProof? || verdict.BadHandle?
              then CheckOnce(verifier.crypto, tx.author, old(cache.keys)) ==
                   Passed(cache.keys, cache.verified - old(cache.verified))
              else cache.keys == old(cache.keys)
    {
      if !verifier.nym(tx) {
        return BadSignature;
      }
      if |tx.endorsements| < settings.endorsements {
        return TooFewEndorsements;
      }
      for i := 0 to |tx.endorsements|
        invariant Endorsed(verifier, tx, i)
      {
        if !verifier.schnorr(tx.endorsements[i], tx.message) {
          return BadEndorsement(i);
        }
      }
      var known := cache.ValidateIdentity(tx.author);
      if !known {
        return BadIdentity;
      }
      if settings.audit && !verifier.auditProof(tx) {
        return BadAuditProof;
      }
      if settings.revoke && !RevocationVerifies(tx) {
        return BadHandle;
      }
      transactions := transactions + [tx];
      return Accepted;
    }

    /** The ledger is cleared if and only if every encryption in it opens to the author's key; the first that
        does not stops the peer with the ledger as it was. */
    method Audit() returns (ok: bool)
      modifies this`transactions
      ensures ok <==> forall i :: 0 <= i < |old(transactions)| ==> AuditPasses(verifier, old(transactions)[i])
      ensures transactions == if ok then [] else old(transactions)
    {
      for i := 0 to |transactions|
        invariant transactions == old(transactions)
        invariant forall j :: 0 <= j < i ==> AuditPasses(verifier, transactions[j])
      {
        if verifier.decrypt(transactions[i].auditEnc) != transactions[i].authorPk {
          assert !AuditPasses(verifier, transactions[i]);
          return false;
        }
      }
      transactions := [];
      return true;
    }
  }
}
