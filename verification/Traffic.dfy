/** The transfers of a simulation with their two ends, and how long the simulated network needs for them. */
module Traffic {
  import opened Sums
  import opened Events
  import opened Protocol
  import opened Runs
  import K = Packets

  // ---- the packets of a step

  /** A request for a handle. Its user never sets the number, and the authority knows it by a key only. */
  datatype Request = Request(userID: nat := 0)

  /** What the step sends over the network. */
  function StepTraffic(c: Config, s: State, l: Label): seq<K.Packet>
    requires Shape(c, s) && Enabled(c, s, l)
  {
    match l
    case Loop(p) => LoopTraffic(c, s, p)
    case Endorser(n, slot, _) =>
      if s.txs[n].endorse[slot] == Working(3) then
        [K.Packet(K.Peer(EndorserAt(c, n, slot)), K.User(UserOf(c, n)), Endorsement)]
      else []
    case Authority =>
      if s.grants[s.authority.job].pc.Received? then
        [K.Packet(K.User(Request().userID), K.RevocationAuthority, NonRevocationRequest)]
      else []
    case Granter(r) =>
      if s.grants[r].pc.Working? then
        [K.Packet(K.RevocationAuthority, K.User(Request().userID), NonRevocationHandle)]
      else []
    case _ => []
  }

  function LoopTraffic(c: Config, s: State, p: nat): seq<K.Packet>
    requires Shape(c, s) && LoopCan(c, s, p)
  {
    var j := s.loops[p].job;
    match j
    case EndorseJob(n, slot) =>
      if s.txs[n].endorse[slot].Received? then [K.Packet(K.User(UserOf(c, n)), K.Peer(p), TransactionProposal)]
      else []
    case OrderJob(n) => [K.Packet(K.User(UserOf(c, n)), K.Peer(p), Object.Transaction)]
    case ValidateJob(n, peer) =>
      if s.txs[n].validate[peer].Received? && OrdererOf(c, n) != p then
        [K.Packet(K.Peer(OrdererOf(c, n)), K.Peer(p), Object.Transaction)]
      else []
  }

  function CountOf(packets: seq<K.Packet>, what: Object): nat {
    if packets == [] then 0
    else CountOf(packets[..|packets| - 1], what) + One(packets[|packets| - 1].what == what)
  }

  lemma {:induction false} CountConcat(xs: seq<K.Packet>, ys: seq<K.Packet>, what: Object)
    ensures CountOf(xs + ys, what) == CountOf(xs, what) + CountOf(ys, what)
  {
    if ys == [] {
      assert xs + ys == xs;
    } else {
      assert (xs + ys)[..|xs + ys| - 1] == xs + ys[..|ys| - 1];
      CountConcat(xs, ys[..|ys| - 1], what);
    }
  }

  lemma LoopSends(c: Config, s: State, p: nat, o: Object)
    requires Shape(c, s) && LoopCan(c, s, p)
    ensures LoopStep(c, s, p).events[Event.Transfer(o)] ==
              s.events[Event.Transfer(o)] + CountOf(LoopTraffic(c, s, p), o)
  {
    match s.loops[p].job
    case EndorseJob(n, slot) => if s.txs[n].endorse[slot].Received? {} else {}
    case OrderJob(n) =>
    case ValidateJob(n, peer) => if s.txs[n].validate[peer].Received? {} else {}
  }

  lemma EndorserSends(c: Config, s: State, n: nat, slot: nat, hit: bool, o: Object)
    requires Shape(c, s) && EndorserCan(c, s, n, slot) && s.crash == NoCrash
    ensures EndorserStep(c, s, n, slot, hit).events[Event.Transfer(o)] ==
              s.events[Event.Transfer(o)] + CountOf(StepTraffic(c, s, Label.Endorser(n, slot, hit)), o)
  {
    match s.txs[n].endorse[slot]
    case Working(at) => EndorsementIsSent(at, hit, o);
    case _ =>
  }

  /** Only the last piece of an endorser's work sends something. */
  lemma EndorsementIsSent(at: nat, hit: bool, o: Object)
    ensures EndorseEvents(at, hit)[Event.Transfer(o)] == One(at >= 3 && o == Endorsement)
  {
    if hit {} else {}
  }

  /** Only cryptographic operations. */
  predicate Silent(events: multiset<Event>, o: Object) {
    events[Event.Transfer(o)] == 0
  }

  lemma BuildIsSilent(c: Config, o: Object)
    ensures Silent(BuildEvents(c), o)
  {
    if c.revoke { if c.audit {} else {} } else { if c.audit {} else {} }
  }

  lemma UserSends(c: Config, s: State, n: nat, o: Object)
    requires Shape(c, s) && UserCan(c, s, n)
    ensures UserStep(c, s, n).events[Event.Transfer(o)] == s.events[Event.Transfer(o)]
  {
    match s.txs[n].user
    case Waiting =>
    case Building => BuildIsSilent(c, o);
    case Reading => if s.txs[n].epoch != s.epoch {} else {}
    case Committing(got) => if got < c.peers {} else {}
    case _ =>
  }

  lemma MainSends(c: Config, s: State, o: Object)
    requires Shape(c, s) && MainCan(c, s)
    ensures MainStep(c, s).events[Event.Transfer(o)] == s.events[Event.Transfer(o)]
  {
  }

  lemma OrdererSends(c: Config, s: State, n: nat, hit: bool, o: Object)
    requires Shape(c, s) && OrdererCan(c, s, n)
    ensures OrdererStep(c, s, n, hit).events[Event.Transfer(o)] == s.events[Event.Transfer(o)]
  {
    if hit {} else {}
  }

  lemma ValidationIsSilent(c: Config, at: nat, hit: bool, o: Object)
    ensures Silent(ValidateEvents(c, at, hit), o)
  {
    if hit {} else {}
  }

  lemma ValidatorSends(c: Config, s: State, n: nat, p: nat, hit: bool, o: Object)
    requires Shape(c, s) && ValidatorCan(c, s, n, p)
    ensures ValidatorStep(c, s, n, p, hit).events[Event.Transfer(o)] == s.events[Event.Transfer(o)]
  {
    match s.txs[n].validate[p]
    case Working(at) => ValidationIsSilent(c, at, hit, o);
    case _ =>
  }

  /** The transfers a step records are the packets it sends. */
  lemma StepSends(c: Config, s: State, l: Label, o: Object)
    requires Shape(c, s) && Enabled(c, s, l)
    ensures Apply(c, s, l).events[Event.Transfer(o)] ==
              s.events[Event.Transfer(o)] + CountOf(StepTraffic(c, s, l), o)
  {
    match l {
      case Loop(p) => LoopSends(c, s, p, o);
      case Endorser(n, slot, hit) => EndorserSends(c, s, n, slot, hit, o);
      case Authority =>
      case Granter(r) =>
      case Main => MainSends(c, s, o);
      case User(n) => UserSends(c, s, n, o);
      case Orderer(n, hit) => OrdererSends(c, s, n, hit, o);
      case Validator(n, p, hit) => ValidatorSends(c, s, n, p, hit, o);
      case Tick =>
    }
  }

  // ---- the packets of a run

  /** What one issuing of credentials sends between the two ends. */
  function Issuing(from: K.Name, to: K.Name): seq<K.Packet> {
    [K.Packet(from, to, Nonce), K.Packet(to, from, CredRequest), K.Packet(from, to, Credentials)]
  }

  function OrgSetup(orgs: nat): seq<K.Packet> {
    if orgs == 0 then [] else OrgSetup(orgs - 1) + Issuing(K.Root, K.Org(orgs - 1))
  }

  function UserSetup(users: nat, issuer: nat -> nat): seq<K.Packet> {
    if users == 0 then []
    else UserSetup(users - 1, issuer) + Issuing(K.Org(issuer(users - 1)), K.User(users - 1))
  }

  /** All packets of a run, after those of the setup; which organisation serves a user is open. */
  ghost function RunTraffic(c: Config, issuer: nat -> nat, run: Run): seq<K.Packet>
    requires Feasible(c, run)
  {
    if run == [] then OrgSetup(c.orgs) + UserSetup(c.users, issuer)
    else RunTraffic(c, issuer, Front(run)) + StepTraffic(c, After(c, Front(run)), Last(run))
  }

  lemma CountOfThree(from: K.Name, to: K.Name, o: Object)
    ensures CountOf(Issuing(from, to), o) == One(o.Nonce? || o.CredRequest? || o.Credentials?)
  {
    var x, y, z := K.Packet(from, to, Nonce), K.Packet(to, from, CredRequest), K.Packet(from, to, Credentials);
    assert [x, y, z][..2] == [x, y] && [x, y][..1] == [x] && [x][..0] == [];
    assert CountOf([x], o) == One(o.Nonce?);
    assert CountOf([x, y], o) == One(o.Nonce?) + One(o.CredRequest?);
  }

  /** Each member takes part in one transfer of each kind of the setup. */
  function SetupShare(members: nat, o: Object): nat {
    if o.Nonce? || o.CredRequest? || o.Credentials? then members else 0
  }

  lemma {:induction false} OrgSetupCount(orgs: nat, o: Object)
    ensures CountOf(OrgSetup(orgs), o) == SetupShare(orgs, o)
  {
    if orgs > 0 {
      OrgSetupCount(orgs - 1, o);
      CountOfThree(K.Root, K.Org(orgs - 1), o);
      CountConcat(OrgSetup(orgs - 1), Issuing(K.Root, K.Org(orgs - 1)), o);
    }
  }

  lemma {:induction false} UserSetupCount(users: nat, issuer: nat -> nat, o: Object)
    ensures CountOf(UserSetup(users, issuer), o) == SetupShare(users, o)
  {
    if users > 0 {
      var user, org := K.User(users - 1), K.Org(issuer(users - 1));
      UserSetupCount(users - 1, issuer, o);
      CountOfThree(org, user, o);
      CountConcat(UserSetup(users - 1, issuer), Issuing(org, user), o);
    }
  }

  lemma SetupEventsShare(members: nat, o: Object)
    ensures SetupEvents(members)[Event.Transfer(o)] == SetupShare(members, o)
  {
  }

  lemma SetupIsRecorded(orgs: nat, users: nat, issuer: nat -> nat, o: Object)
    ensures CountOf(OrgSetup(orgs) + UserSetup(users, issuer), o) == SetupShare(orgs + users, o)
  {
    OrgSetupCount(orgs, o);
    UserSetupCount(users, issuer, o);
    CountConcat(OrgSetup(orgs), UserSetup(users, issuer), o);
  }

  /** In every reachable state the packets sent so far are, kind by kind, the transfers recorded. */
  lemma {:induction false} TrafficIsRecorded(c: Config, issuer: nat -> nat, run: Run, o: Object)
    requires Valid(c) && Feasible(c, run)
    ensures CountOf(RunTraffic(c, issuer, run), o) == After(c, run).events[Event.Transfer(o)]
  {
    if run == [] {
      SetupIsRecorded(c.orgs, c.users, issuer, o);
      SetupEventsShare(c.orgs + c.users, o);
    } else {
      TrafficIsRecorded(c, issuer, Front(run), o);
      StepSends(c, After(c, Front(run)), Last(run), o);
      CountConcat(RunTraffic(c, issuer, Front(run)), StepTraffic(c, After(c, Front(run)), Last(run)), o);
    }
  }

  // ---- revocation traffic

  predicate IsRevocation(what: Object) {
    what.NonRevocationRequest? || what.NonRevocationHandle?
  }

  /** Revocation traffic has user 0 at one end. */
  ghost predicate FromOrToUserZero(packets: seq<K.Packet>) {
    forall i :: 0 <= i < |packets| && IsRevocation(packets[i].what) ==>
      packets[i].from == K.User(0) || packets[i].to == K.User(0)
  }

  lemma {:induction false} SetupHasNone(c: Config, issuer: nat -> nat, orgs: nat, users: nat)
    ensures forall i :: 0 <= i < |OrgSetup(orgs)| ==> !IsRevocation(OrgSetup(orgs)[i].what)
    ensures forall i :: 0 <= i < |UserSetup(users, issuer)| ==> !IsRevocation(UserSetup(users, issuer)[i].what)
  {
    if orgs > 0 {
      SetupHasNone(c, issuer, orgs - 1, users);
    } else if users > 0 {
      SetupHasNone(c, issuer, orgs, users - 1);
    }
  }

  lemma {:induction false} RevocationIsUserZeros(c: Config, issuer: nat -> nat, run: Run)
    requires Valid(c) && Feasible(c, run)
    ensures FromOrToUserZero(RunTraffic(c, issuer, run))
  {
    if run == [] {
      SetupHasNone(c, issuer, c.orgs, c.users);
    } else {
      RevocationIsUserZeros(c, issuer, Front(run));
      StepIsUserZeros(c, After(c, Front(run)), Last(run));
    }
  }

  lemma StepIsUserZeros(c: Config, s: State, l: Label)
    requires Shape(c, s) && Enabled(c, s, l)
    ensures FromOrToUserZero(StepTraffic(c, s, l))
  {
  }
}
