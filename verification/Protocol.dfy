/** The simulator's transaction protocol as a transition system.

    A process is the main goroutine, the current submitTransaction call of a user, a peer's select loop,
    the revocation authority's loop, or one spawned endorse, order, validate or grant goroutine.  A step
    moves one process from one synchronisation point to its next; a rendezvous on an unbuffered channel
    moves both ends.  Transactions are numbered 0 .. users * transactions - 1, user by user. */
module Protocol {
  import opened Endorsers
  import opened Events

  /** System parameters, and the messages the users draw at random: a theorem about every Config is a
      theorem about every draw. */
  datatype Config = Config(
    orgs: nat,
    usersPerOrg: nat,
    users: nat,
    transactions: nat,
    peers: nat,
    endorsements: nat,
    concurrentEndorsements: nat,
    concurrentValidations: nat,
    concurrentRevocations: nat,
    revoke: bool,
    audit: bool,
    message: nat -> string,
    sha3: string -> seq<Byte>)

  ghost predicate Valid(c: Config) {
    && c.users == c.orgs * c.usersPerOrg
    && c.peers >= 1 && c.endorsements >= 1
    && c.concurrentEndorsements >= 1 && c.concurrentValidations >= 1 && c.concurrentRevocations >= 1
  }

  /** Life of a spawned goroutine and of the message that causes it. */
  datatype JobPc =
    | Unsent
    | Received              // taken by the receiver's loop, transfer not yet recorded
    | Acquiring             // the loop waits for a permit
    | Working(at: nat)
    | Replying              // about to send its result
    | Releasing             // result sent, permit still held
    | Gone

  datatype UserPc =
    | Waiting
    | Sending(slot: nat)
    | Collecting
    | Reading
    | Requesting
    | Awaiting
    | Building
    | Ordering
    | Committing(got: nat)
    | Done

  /** One submitTransaction call with its copy of the user, its goroutines and its two done channels:
      a channel is the log of what was sent (slots in `answers`, peers in `commits`) and how much of it
      was received (`taken`, and `got` in Committing). */
  datatype Tx = Tx(
    user: UserPc,
    epoch: nat,
    handle: nat,            // epoch signed in the copied or refreshed handle
    endorse: seq<JobPc>,    // by slot
    answers: seq<nat>,
    taken: nat,
    order: JobPc,
    validate: seq<JobPc>,   // by peer
    commits: seq<nat>)

  datatype Grant = Grant(pc: JobPc, signed: nat)

  datatype Job = EndorseJob(tx: nat, slot: nat) | OrderJob(tx: nat) | ValidateJob(tx: nat, peer: nat)

  datatype LoopPc<T> = Select | Busy(job: T) | Exited

  datatype MainPc =
    | Launching(next: nat)
    | AwaitingHandle(next: nat)
    | Auditing(next: nat)
    | Stopping(next: nat)
    | Finished

  datatype Entry = Entry(tx: nat, endorsers: seq<nat>, epoch: nat, handle: nat)

  datatype Crash = NoCrash | TooFewEndorsements(tx: nat) | StaleHandle(tx: nat)

  datatype State = State(
    main: MainPc,
    txs: seq<Tx>,
    loops: seq<LoopPc<Job>>,
    authority: LoopPc<nat>,
    grants: seq<Grant>,           // first one per user at launch, then one per transaction
    endorsePermits: seq<nat>,
    validatePermits: seq<nat>,
    grantPermits: nat,
    epoch: nat,
    ledger: seq<Entry>,
    events: multiset<Event>,
    crash: Crash)

  /** Which process moves; `hit` says whether an identity check found its key in the peer's cache. */
  datatype Label =
    | Main
    | User(tx: nat)
    | Loop(peer: nat)
    | Endorser(tx: nat, slot: nat, hit: bool)
    | Orderer(tx: nat, hit: bool)
    | Validator(tx: nat, peer: nat, hit: bool)
    | Authority
    | Granter(request: nat)
    | Tick

  function UserOf(c: Config, tx: nat): nat
    requires c.transactions > 0
  {
    tx / c.transactions
  }

  function EndorserAt(c: Config, tx: nat, slot: nat): (peer: nat)
    requires c.peers >= 1
    ensures peer < c.peers
  {
    WindowAt(PeerByHash(c.sha3(c.message(tx)), c.peers), slot, c.peers)
  }

  function OrdererOf(c: Config, tx: nat): (peer: nat)
    requires c.peers >= 1
    ensures peer < c.peers
  {
    PeerByHash(c.sha3(c.message(tx) + "-order"), c.peers)
  }

  function EndorsersOf(c: Config, tx: nat, slots: seq<nat>): (peers: seq<nat>)
    requires c.peers >= 1
    ensures |peers| == |slots|
  {
    seq(|slots|, k requires 0 <= k < |slots| => EndorserAt(c, tx, slots[k]))
  }

  ghost predicate Shape(c: Config, s: State) {
    && c.peers >= 1 && c.endorsements >= 1
    && |s.txs| == c.users * c.transactions
    && (|s.txs| > 0 ==> c.transactions > 0)
    && |s.loops| == |s.endorsePermits| == |s.validatePermits| == c.peers
    && |s.grants| == c.users + |s.txs|
    && forall n :: 0 <= n < |s.txs| ==> TxShape(c, s.txs[n])
  }

  ghost predicate TxShape(c: Config, t: Tx) {
    |t.endorse| == c.endorsements && |t.validate| == c.peers && t.taken <= |t.answers|
  }

  function InitialTx(c: Config): Tx {
    Tx(Waiting, 0, 0, seq(c.endorsements, _ => Unsent), [], 0, Unsent, seq(c.peers, _ => Unsent), [])
  }

  /** Credential issuance is over: one delegation and three transfers per organisation and per user. */
  function SetupEvents(members: nat): multiset<Event> {
    multiset{}[Crypto(CredDelegation) := members][Transfer(Nonce) := members]
    [Transfer(CredRequest) := members][Transfer(Credentials) := members]
  }

  function Init(c: Config): State {
    State(
      Launching(0),
      seq(c.users * c.transactions, _ => InitialTx(c)),
      seq(c.peers, _ => Select),
      Select,
      seq(c.users + c.users * c.transactions, _ => Grant(Unsent, 0)),
      seq(c.peers, _ => c.concurrentEndorsements),
      seq(c.peers, _ => c.concurrentValidations),
      c.concurrentRevocations,
      1,
      [],
      SetupEvents(c.orgs + c.users),
      NoCrash)
  }

  function Launched(c: Config, main: MainPc): nat {
    match main
    case Launching(next) => next
    case AwaitingHandle(next) => next
    case _ => c.users
  }

  ghost predicate AllDone(s: State) {
    forall n :: 0 <= n < |s.txs| ==> s.txs[n].user.Done?
  }

  function SetTx(s: State, n: nat, t: Tx): State
    requires n < |s.txs|
  {
    s.(txs := s.txs[n := t])
  }

  function Emit(s: State, events: multiset<Event>): State {
    s.(events := s.events + events)
  }

  function Ev(operation: CryptoEvent): multiset<Event> {
    multiset{Crypto(operation)}
  }

  function Sent(what: Object): multiset<Event> {
    multiset{Transfer(what)}
  }

  /** validateIdentity: always a hash, and a proof verification when the cache misses. */
  function Check(hit: bool): multiset<Event> {
    if hit then Ev(Hash) else Ev(Hash) + Ev(CredVerify)
  }

  // ---- the main goroutine

  ghost predicate MainCan(c: Config, s: State)
    requires Shape(c, s)
  {
    match s.main
    case Launching(u) =>
      if u < c.users then c.revoke ==> s.authority.Select? else AllDone(s)
    case AwaitingHandle(u) => u < c.users && s.grants[u].pc.Replying?
    case Auditing(_) => true
    case Stopping(p) => if p < c.peers then s.loops[p].Select? else s.authority.Select?
    case Finished => false
  }

  function MainStep(c: Config, s: State): State
    requires Shape(c, s) && MainCan(c, s)
  {
    match s.main
    case Launching(u) =>
      if u < c.users then
        if c.revoke then
          s.(main := AwaitingHandle(u), authority := Busy(u), grants := s.grants[u := s.grants[u].(pc := Received)])
        else
          s.(main := Launching(u + 1))
      else
        s.(main := if c.audit then Auditing(0) else Stopping(0))
    case AwaitingHandle(u) =>
      s.(main := Launching(u + 1), grants := s.grants[u := s.grants[u].(pc := Releasing)])
    case Auditing(i) =>
      if i < |s.ledger| then Emit(s.(main := Auditing(i + 1)), Ev(AuditDecrypt)) else s.(main := Stopping(0))
    case Stopping(p) =>
      if p < c.peers then s.(main := Stopping(p + 1), loops := s.loops[p := Exited])
      else s.(main := Finished, authority := Exited)
  }

  // ---- submitTransaction

  ghost predicate UserCan(c: Config, s: State, n: nat)
    requires Shape(c, s)
  {
    n < |s.txs| && var t := s.txs[n];
    match t.user
    case Waiting =>
      UserOf(c, n) < Launched(c, s.main) <= c.users && (n % c.transactions == 0 || s.txs[n - 1].user.Done?)
    case Sending(slot) => slot < c.endorsements && s.loops[EndorserAt(c, n, slot)].Select?
    case Collecting => t.taken < |t.answers|
    case Reading => UserOf(c, n) < c.users
    case Requesting => s.authority.Select?
    case Awaiting => s.grants[c.users + n].pc.Replying?
    case Building => true
    case Ordering => s.loops[OrdererOf(c, n)].Select?
    case Committing(got) => got == c.peers || got < |t.commits|
    case Done => false
  }

  function BuildEvents(c: Config): multiset<Event> {
    Ev(SignNym) + Ev(Hash)
    + (if c.revoke then Ev(NonRevokeProve) else multiset{})
    + (if c.audit then Ev(AuditEncrypt) + Ev(AuditProve) else multiset{})
  }

  function UserStep(c: Config, s: State, n: nat): State
    requires Shape(c, s) && UserCan(c, s, n)
  {
    var t := s.txs[n];
    match t.user
    case Waiting =>
      // the loop copies the stored user, whose epoch stays 0 and whose handle is the one got at launch
      var copy := t.(user := Sending(0), epoch := 0, handle := s.grants[UserOf(c, n)].signed);
      Emit(SetTx(s, n, copy), Ev(Hash) + Ev(Hash) + Ev(CredProve) + Ev(SignNym))
    case Sending(slot) =>
      var next := if slot + 1 < c.endorsements then Sending(slot + 1) else Collecting;
      SetTx(s, n, t.(user := next, endorse := t.endorse[slot := Received]))
      .(loops := s.loops[EndorserAt(c, n, slot) := Busy(EndorseJob(n, slot))])
    case Collecting =>
      var next := if t.taken + 1 < c.endorsements then Collecting else if c.revoke then Reading else Building;
      Emit(SetTx(s, n, t.(user := next, taken := t.taken + 1)), Ev(VerifySchnorr))
    case Reading =>
      if t.epoch != s.epoch then SetTx(s, n, t.(user := Requesting, epoch := s.epoch))
      else SetTx(s, n, t.(user := Building))
    case Requesting =>
      var r := c.users + n;
      SetTx(s, n, t.(user := Awaiting)).(authority := Busy(r), grants := s.grants[r := s.grants[r].(pc := Received)])
    case Awaiting =>
      var r := c.users + n;
      SetTx(s, n, t.(user := Building, handle := s.grants[r].signed))
      .(grants := s.grants[r := s.grants[r].(pc := Releasing)])
    case Building =>
      Emit(SetTx(s, n, t.(user := Ordering)), BuildEvents(c))
    case Ordering =>
      SetTx(s, n, t.(user := Committing(0), order := Received))
      .(loops := s.loops[OrdererOf(c, n) := Busy(OrderJob(n))])
    case Committing(got) =>
      if got < c.peers then SetTx(s, n, t.(user := Committing(got + 1)))
      else
        SetTx(s, n, t.(user := Done))
        .(ledger := s.ledger + [Entry(n, EndorsersOf(c, n, t.answers[..t.taken]), t.epoch, t.handle)])
  }

  // ---- the select loop of a peer

  ghost predicate IsJob(c: Config, s: State, j: Job) {
    match j
    case EndorseJob(n, slot) => n < |s.txs| && slot < c.endorsements
    case OrderJob(n) => n < |s.txs|
    case ValidateJob(n, peer) => n < |s.txs| && peer < c.peers
  }

  function PcOf(c: Config, s: State, j: Job): JobPc
    requires Shape(c, s) && IsJob(c, s, j)
  {
    match j
    case EndorseJob(n, slot) => s.txs[n].endorse[slot]
    case OrderJob(n) => s.txs[n].order
    case ValidateJob(n, peer) => s.txs[n].validate[peer]
  }

  function PeerOf(c: Config, j: Job): nat
    requires c.peers >= 1
  {
    match j
    case EndorseJob(n, slot) => EndorserAt(c, n, slot)
    case OrderJob(n) => OrdererOf(c, n)
    case ValidateJob(n, peer) => peer
  }

  ghost predicate LoopCan(c: Config, s: State, p: nat)
    requires Shape(c, s)
  {
    p < c.peers && s.loops[p].Busy? && var j := s.loops[p].job;
    && IsJob(c, s, j)
    && match PcOf(c, s, j) {
      case Received => true
      case Acquiring =>
        !j.OrderJob? && (if j.EndorseJob? then s.endorsePermits[p] else s.validatePermits[p]) > 0
      case _ => false
    }
  }

  function LoopStep(c: Config, s: State, p: nat): State
    requires Shape(c, s) && LoopCan(c, s, p)
  {
    var j := s.loops[p].job;
    var t := s.txs[j.tx];
    match j
    case EndorseJob(n, slot) =>
      if t.endorse[slot].Received? then
        Emit(SetTx(s, n, t.(endorse := t.endorse[slot := Acquiring])), Sent(TransactionProposal))
      else
        SetTx(s, n, t.(endorse := t.endorse[slot := Working(0)]))
        .(loops := s.loops[p := Select], endorsePermits := s.endorsePermits[p := s.endorsePermits[p] - 1])
    case OrderJob(n) =>
      Emit(SetTx(s, n, t.(order := Working(0))), Sent(Transaction)).(loops := s.loops[p := Select])
    case ValidateJob(n, peer) =>
      if t.validate[peer].Received? then
        Emit(SetTx(s, n, t.(validate := t.validate[peer := Acquiring])),
             if OrdererOf(c, n) != p then Sent(Transaction) else multiset{})
      else
        SetTx(s, n, t.(validate := t.validate[peer := Working(0)]))
        .(loops := s.loops[p := Select], validatePermits := s.validatePermits[p := s.validatePermits[p] - 1])
  }

  // ---- endorse, order and validate goroutines

  ghost predicate EndorserCan(c: Config, s: State, n: nat, slot: nat)
    requires Shape(c, s)
  {
    n < |s.txs| && slot < c.endorsements && var t := s.txs[n];
    match t.endorse[slot]
    case Working(at) => at < 4
    case Replying => |t.answers| < t.taken + c.endorsements     // room in the buffered done channel
    case Releasing => true
    case _ => false
  }

  /** Verify the signature, check the author, check permissions, then sign and send back. */
  function EndorseEvents(at: nat, hit: bool): multiset<Event> {
    if at == 0 then Ev(VerifyNym) else if at < 3 then Check(hit) else Ev(SignSchnorr) + Sent(Endorsement)
  }

  function EndorserStep(c: Config, s: State, n: nat, slot: nat, hit: bool): State
    requires Shape(c, s) && EndorserCan(c, s, n, slot)
  {
    var t := s.txs[n];
    match t.endorse[slot]
    case Working(at) =>
      var next := if at < 3 then Working(at + 1) else Replying;
      Emit(SetTx(s, n, t.(endorse := t.endorse[slot := next])), EndorseEvents(at, hit))
    case Replying =>
      SetTx(s, n, t.(endorse := t.endorse[slot := Releasing], answers := t.answers + [slot]))
    case Releasing =>
      var p := EndorserAt(c, n, slot);
      SetTx(s, n, t.(endorse := t.endorse[slot := Gone]))
      .(endorsePermits := s.endorsePermits[p := s.endorsePermits[p] + 1])
  }

  ghost predicate OrdererCan(c: Config, s: State, n: nat)
    requires Shape(c, s)
  {
    n < |s.txs| && s.txs[n].order.Working?
    && var at := s.txs[n].order.at;
    at == 0 || (at <= c.peers && s.loops[at - 1].Select?)
  }

  function OrdererStep(c: Config, s: State, n: nat, hit: bool): State
    requires Shape(c, s) && OrdererCan(c, s, n)
  {
    var t := s.txs[n];
    var at := t.order.at;
    if at == 0 then
      Emit(SetTx(s, n, t.(order := Working(1))), Check(hit))
    else
      var next := if at < c.peers then Working(at + 1) else Gone;
      SetTx(s, n, t.(order := next, validate := t.validate[at - 1 := Received]))
      .(loops := s.loops[at - 1 := Busy(ValidateJob(n, at - 1))])
  }

  ghost predicate ValidatorCan(c: Config, s: State, n: nat, p: nat)
    requires Shape(c, s)
  {
    n < |s.txs| && p < c.peers && var t := s.txs[n];
    match t.validate[p]
    case Working(at) => at < 5
    case Replying => |t.commits| < (if t.user.Committing? then t.user.got else 0) + c.peers
    case Releasing => true
    case _ => false
  }

  function ValidateEvents(c: Config, at: nat, hit: bool): multiset<Event> {
    if at == 0 then Ev(VerifyNym)
    else if at == 1 then Ev(VerifySchnorr)
    else if at == 2 then Check(hit)
    else if at == 3 then if c.audit then Ev(AuditVerify) else multiset{}
    else if c.revoke then Ev(NonRevokeVerify) else multiset{}
  }

  /** The two checks whose failure panics.  A non-revocation proof made with a handle verifies exactly
      for the epoch signed in that handle. */
  function ValidateFailure(c: Config, n: nat, t: Tx, at: nat): Crash {
    if at == 1 && t.taken < c.endorsements then TooFewEndorsements(n)
    else if at == 4 && c.revoke && t.epoch != t.handle then StaleHandle(n)
    else NoCrash
  }

  function ValidatorStep(c: Config, s: State, n: nat, p: nat, hit: bool): State
    requires Shape(c, s) && ValidatorCan(c, s, n, p)
  {
    var t := s.txs[n];
    match t.validate[p]
    case Working(at) =>
      var failure := ValidateFailure(c, n, t, at);
      if failure != NoCrash then s.(crash := failure)
      else
        var next := if at < 4 then Working(at + 1) else Replying;
        Emit(SetTx(s, n, t.(validate := t.validate[p := next])), ValidateEvents(c, at, hit))
    case Replying =>
      SetTx(s, n, t.(validate := t.validate[p := Releasing], commits := t.commits + [p]))
    case Releasing =>
      SetTx(s, n, t.(validate := t.validate[p := Gone]))
      .(validatePermits := s.validatePermits[p := s.validatePermits[p] + 1])
  }

  // ---- the revocation authority and its grant goroutines

  ghost predicate AuthorityCan(c: Config, s: State)
    requires Shape(c, s)
  {
    s.authority.Busy? && s.authority.job < |s.grants|
    && var pc := s.grants[s.authority.job].pc;
    pc.Received? || (pc.Acquiring? && s.grantPermits > 0)
  }

  function AuthorityStep(c: Config, s: State): State
    requires Shape(c, s) && AuthorityCan(c, s)
  {
    var r := s.authority.job;
    var g := s.grants[r];
    if g.pc.Received? then
      Emit(s.(grants := s.grants[r := g.(pc := Acquiring)]), Sent(NonRevocationRequest))
    else
      s.(grants := s.grants[r := g.(pc := Working(0))], authority := Select, grantPermits := s.grantPermits - 1)
  }

  ghost predicate GranterCan(c: Config, s: State, r: nat)
    requires Shape(c, s)
  {
    r < |s.grants| && (s.grants[r].pc == Working(0) || s.grants[r].pc.Releasing?)
  }

  /** The epoch that is signed is the one current now, not the one the requester saw. */
  function GranterStep(c: Config, s: State, r: nat): State
    requires Shape(c, s) && GranterCan(c, s, r)
  {
    var g := s.grants[r];
    if g.pc.Working? then
      Emit(s.(grants := s.grants[r := Grant(Replying, s.epoch)]), Ev(NonRevokeGrant) + Sent(NonRevocationHandle))
    else
      s.(grants := s.grants[r := g.(pc := Gone)], grantPermits := s.grantPermits + 1)
  }

  // ---- all steps

  ghost predicate Enabled(c: Config, s: State, l: Label)
    requires Shape(c, s)
  {
    s.crash == NoCrash &&
    match l
    case Main => MainCan(c, s)
    case User(n) => UserCan(c, s, n)
    case Loop(p) => LoopCan(c, s, p)
    case Endorser(n, slot, _) => EndorserCan(c, s, n, slot)
    case Orderer(n, _) => OrdererCan(c, s, n)
    case Validator(n, p, _) => ValidatorCan(c, s, n, p)
    case Authority => AuthorityCan(c, s)
    case Granter(r) => GranterCan(c, s, r)
    case Tick => s.authority.Select?     // the timer is a case of the authority's select
  }

  function Apply(c: Config, s: State, l: Label): State
    requires Shape(c, s) && Enabled(c, s, l)
  {
    match l
    case Main => MainStep(c, s)
    case User(n) => UserStep(c, s, n)
    case Loop(p) => LoopStep(c, s, p)
    case Endorser(n, slot, hit) => EndorserStep(c, s, n, slot, hit)
    case Orderer(n, hit) => OrdererStep(c, s, n, hit)
    case Validator(n, p, hit) => ValidatorStep(c, s, n, p, hit)
    case Authority => AuthorityStep(c, s)
    case Granter(r) => GranterStep(c, s, r)
    case Tick => if c.revoke then s.(epoch := s.epoch + 1) else s
  }
}
